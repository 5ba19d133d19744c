/** The signed-in user's session as the sign-in page writes it to
    `localStorage` under `userSession` and the dashboard reads it back. */
module Sessions {

  /** The JSON record `{userId, name, email, loginTime}`; `loginTime` is
      `Date.now()` in milliseconds. */
  datatype Session = Session(userId: string, name: string, email: string, loginTime: int)

  /** The `userSession` entry: absent, present but not parseable as JSON,
      or a session. */
  datatype StoredSession = NoSession | Unreadable | Stored(session: Session)

  /** Thirty days in milliseconds. */
  const SessionLifetimeMs: int := 30 * 24 * 60 * 60 * 1000

  /** The dashboard discards a session once it is thirty days old or older. */
  predicate IsExpired(s: Session, now: int) {
    now - s.loginTime >= SessionLifetimeMs
  }

  /** Once expired, a session stays expired. */
  lemma ExpiryIsPermanent(s: Session, now: int, later: int)
    requires IsExpired(s, now) && now <= later
    ensures IsExpired(s, later)
  {
  }
}
