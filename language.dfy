/** The two-language switch (language.js): the chosen language kept in
    `localStorage` under `language`, the English/Chinese toggle, key lookup
    in the translation table with the key itself as fallback, and the pass
    over the page that rewrites every tagged element whose key the table
    knows. The table's contents are a parameter. */
module Language {
  import opened Wrappers
  import opened Seqs

  const English := "en"
  const Chinese := "zh"

  /** The toggle button's text: the language it switches to. */
  const ChineseLabel := "中文"
  const EnglishLabel := "EN"

  /** `translations`: per key, the text in each language it has. */
  type Translations = map<string, map<string, string>>

  /** getCurrentLanguage: the stored value, or "en" when nothing (or the
      empty string) is stored. */
  function CurrentLanguage(stored: Option<string>): string {
    match stored
    case None => English
    case Some(lang) => if lang == "" then English else lang
  }

  /** The language toggleLanguage switches to: "zh" from "en", "en" from
      anything else. */
  function Toggled(lang: string): string {
    if lang == English then Chinese else English
  }

  /** The toggle button's label for the current language. */
  function ToggleLabel(lang: string): string {
    if lang == English then ChineseLabel else EnglishLabel
  }

  /** A JavaScript string or `undefined`, as `translations[key][lang]`
      yields for a language the entry lacks. */
  datatype JsText = Str(text: string) | Undefined

  /** The text a DOM string property holds after being assigned the value:
      `undefined` becomes "undefined". */
  function Shown(v: JsText): string {
    match v
    case Str(s) => s
    case Undefined => "undefined"
  }

  /** `t(key)` in language `lang`. */
  function Translate(table: Translations, key: string, lang: string): JsText {
    if key !in table then Str(key)
    else if lang in table[key] then Str(table[key][lang])
    else Undefined
  }

  /** An element carrying `data-i18n`, and its inner HTML. */
  datatype TextElement = TextElement(key: string, html: string)

  /** An element carrying `data-i18n-placeholder`, and its placeholder. */
  datatype InputElement = InputElement(key: string, placeholder: string)

  /** What applyLanguage makes of a `data-i18n` element. */
  function Localised(table: Translations, lang: string): TextElement -> TextElement {
    (e: TextElement) => if e.key in table then e.(html := Shown(Translate(table, e.key, lang))) else e
  }

  /** What applyLanguage makes of a `data-i18n-placeholder` element. */
  function LocalisedInput(table: Translations, lang: string): InputElement -> InputElement {
    (e: InputElement) => if e.key in table then e.(placeholder := Shown(Translate(table, e.key, lang))) else e
  }

  /** Toggling twice returns to the start exactly for "en" and "zh"; any
      other stored value toggles to "en" and then to "zh". */
  lemma ToggleTwice(lang: string)
    ensures Toggled(Toggled(lang)) == lang <==> lang == English || lang == Chinese
    ensures lang != English ==> Toggled(lang) == English
  {
    assert English != Chinese;
  }

  /** The label reads "中文" exactly while the page is in English. */
  lemma LabelNamesTheOtherLanguage(lang: string)
    ensures ToggleLabel(lang) == ChineseLabel <==> lang == English
    ensures ToggleLabel(Toggled(lang)) == EnglishLabel <==> lang == English
  {
    assert ChineseLabel != EnglishLabel;
  }

  /** The table has an entry in both languages for every key. */
  predicate CoversBothLanguages(table: Translations) {
    forall key | key in table :: English in table[key] && Chinese in table[key]
  }

  /** After a toggle the page is in English or Chinese, so with a table
      covering both languages `t(key)` is never `undefined`: it is the key
      itself for an unknown key, and the new language's entry otherwise. */
  lemma ToggledTranslationDefined(table: Translations, stored: Option<string>, key: string)
    requires CoversBothLanguages(table)
    ensures var lang := CurrentLanguage(Some(Toggled(CurrentLanguage(stored))));
      && (lang == English || lang == Chinese)
      && lang != CurrentLanguage(stored)
      && Translate(table, key, lang) == (if key in table then Str(table[key][lang]) else Str(key))
  {
    var lang := Toggled(CurrentLanguage(stored));
    assert English != Chinese;
    assert lang != "" by { assert |lang| == 2; }
    assert CurrentLanguage(Some(lang)) == lang;
  }

  /** Localising keeps every element's key, leaves elements with an unknown
      key as they are, and a second pass changes nothing. */
  lemma {:induction false} LocalisedStable(table: Translations, lang: string, elements: seq<TextElement>)
    ensures |Map(elements, Localised(table, lang))| == |elements|
    ensures forall i | 0 <= i < |elements| :: Map(elements, Localised(table, lang))[i].key == elements[i].key
    ensures forall i | 0 <= i < |elements| && elements[i].key !in table ::
      Map(elements, Localised(table, lang))[i] == elements[i]
    ensures Map(Map(elements, Localised(table, lang)), Localised(table, lang)) == Map(elements, Localised(table, lang))
  {
    var once := Map(elements, Localised(table, lang));
    var twice := Map(once, Localised(table, lang));
    forall i | 0 <= i < |elements|
      ensures twice[i] == once[i]
    {
      assert once[i] == Localised(table, lang)(elements[i]);
    }
  }

  /** The language settings of a page: the stored language, the text of
      the `language-toggle` button if the page has one, and the table. */
  class LanguagePage {
    var stored: Option<string>
    var toggleLabel: Option<string>
    const table: Translations

    constructor (table: Translations, stored: Option<string>, toggleLabel: Option<string>)
      ensures this.table == table && this.stored == stored && this.toggleLabel == toggleLabel
    {
      this.table := table;
      this.stored := stored;
      this.toggleLabel := toggleLabel;
    }

    function Current(): string
      reads this`stored
    {
      CurrentLanguage(stored)
    }

    /** `t(key)`. */
    function T(key: string): (r: JsText)
      reads this`stored
      ensures key !in table ==> r == Str(key)
      ensures key in table && Current() in table[key] ==> r == Str(table[key][Current()])
    {
      Translate(table, key, Current())
    }

    /** Rewrites the inner HTML of every `data-i18n` element and the
        placeholder of every `data-i18n-placeholder` element whose key is in
        the table, in document order, and relabels the toggle button when
        there is one. */
    method ApplyLanguage(texts: array<TextElement>, inputs: array<InputElement>)
      modifies this`toggleLabel, texts, inputs
      ensures texts[..] == Map(old(texts[..]), Localised(table, Current()))
      ensures inputs[..] == Map(old(inputs[..]), LocalisedInput(table, Current()))
      ensures toggleLabel == if old(toggleLabel).Some? then Some(ToggleLabel(Current())) else None
      ensures forall i | 0 <= i < texts.Length && texts[i].key in table :: texts[i].html == Shown(T(texts[i].key))
      ensures forall i | 0 <= i < inputs.Length && inputs[i].key in table ::
        inputs[i].placeholder == Shown(T(inputs[i].key))
    {
      var lang := Current();
      for i := 0 to texts.Length
        invariant texts[..i] == Map(old(texts[..i]), Localised(table, lang))
        invariant texts[i..] == old(texts[i..])
        invariant inputs[..] == old(inputs[..])
        invariant toggleLabel == old(toggleLabel)
      {
        var element := texts[i];
        if element.key in table {
          texts[i] := element.(html := Shown(Translate(table, element.key, lang)));
        }
        assert texts[..i + 1] == texts[..i] + [texts[i]];
        assert old(texts[..i + 1]) == old(texts[..i]) + [element];
        assert texts[i + 1..] == old(texts[i..])[1..];
      }
      assert texts[..] == texts[..texts.Length];
      for i := 0 to inputs.Length
        invariant inputs[..i] == Map(old(inputs[..i]), LocalisedInput(table, lang))
        invariant inputs[i..] == old(inputs[i..])
        invariant texts[..] == Map(old(texts[..]), Localised(table, lang))
        invariant toggleLabel == old(toggleLabel)
      {
        var element := inputs[i];
        if element.key in table {
          inputs[i] := element.(placeholder := Shown(Translate(table, element.key, lang)));
        }
        assert inputs[..i + 1] == inputs[..i] + [inputs[i]];
        assert old(inputs[..i + 1]) == old(inputs[..i]) + [element];
        assert inputs[i + 1..] == old(inputs[i..])[1..];
      }
      assert inputs[..] == inputs[..inputs.Length];
      if toggleLabel.Some? {
        toggleLabel := Some(ToggleLabel(lang));
      }
    }

    /** setLanguage: stores exactly `lang`, then applies it. */
    method SetLanguage(lang: string, texts: array<TextElement>, inputs: array<InputElement>)
      modifies this, texts, inputs
      ensures stored == Some(lang)
      ensures lang != "" ==> Current() == lang && forall key :: T(key) == Translate(table, key, lang)
      ensures texts[..] == Map(old(texts[..]), Localised(table, CurrentLanguage(Some(lang))))
      ensures inputs[..] == Map(old(inputs[..]), LocalisedInput(table, CurrentLanguage(Some(lang))))
      ensures toggleLabel == if old(toggleLabel).Some? then Some(ToggleLabel(CurrentLanguage(Some(lang)))) else None
    {
      stored := Some(lang);
      ApplyLanguage(texts, inputs);
    }

    /** toggleLanguage: stores the other language and applies it. */
    method ToggleLanguage(texts: array<TextElement>, inputs: array<InputElement>)
      modifies this, texts, inputs
      ensures stored == Some(Toggled(CurrentLanguage(old(stored))))
      ensures texts[..] == Map(old(texts[..]), Localised(table, Toggled(CurrentLanguage(old(stored)))))
      ensures inputs[..] == Map(old(inputs[..]), LocalisedInput(table, Toggled(CurrentLanguage(old(stored)))))
      ensures toggleLabel ==
        if old(toggleLabel).Some? then Some(ToggleLabel(Toggled(CurrentLanguage(old(stored))))) else None
    {
      SetLanguage(Toggled(Current()), texts, inputs);
    }
  }
}
