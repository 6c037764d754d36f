/** Session expiry: the last-activity clock reading per user and the one
    hour of idleness after which a session is over. The clock is an integer
    count of microseconds, the resolution of the timestamps compared. */
module Sessions {

  /** SESSION_TIMEOUT, in seconds. */
  const SessionTimeout: int := 3600

  /** Clock ticks (microseconds) per second. */
  const TicksPerSecond: int := 1000000

  /** expired(uid): false without an activity record; otherwise more than
      the timeout has passed, strictly, since the last activity. */
  predicate Expired(lastActivity: map<int, int>, uid: int, now: int) {
    uid in lastActivity && now - lastActivity[uid] > SessionTimeout * TicksPerSecond
  }

  /** Once expired, a session stays expired as the clock moves on, unless
      the activity record is renewed. */
  lemma {:induction false} ExpiryIsPermanent(lastActivity: map<int, int>, uid: int, now: int, later: int)
    requires Expired(lastActivity, uid, now) && now <= later
    ensures Expired(lastActivity, uid, later)
  {
  }

  /** bump(uid): right after it the user's session is live for exactly one
      more timeout, and no other user's expiry changes. */
  lemma {:induction false} BumpRenews(lastActivity: map<int, int>, uid: int, now: int, later: int)
    ensures Expired(lastActivity[uid := now], uid, later) <==> later - now > SessionTimeout * TicksPerSecond
    ensures forall other :: other != uid ==>
      Expired(lastActivity[uid := now], other, later) == Expired(lastActivity, other, later)
  {
  }

  /** Exactly one hour idle is not yet expired; one tick more is. */
  lemma {:induction false} ExpiryBoundary(uid: int, last: int)
    ensures !Expired(map[uid := last], uid, last + SessionTimeout * TicksPerSecond)
    ensures Expired(map[uid := last], uid, last + SessionTimeout * TicksPerSecond + 1)
    ensures !Expired(map[], uid, last + SessionTimeout * TicksPerSecond + 1)
  {
  }
}
