/**
 * The login history shown on the profile page: every recorded login is matched
 * with the stored session that expires closest after it, which tells whether
 * that login is still active, when it ended, and whether it is the caller's own.
 */
module Sessions {
  import opened Common

  /** A `login_history` row; instants are milliseconds since the Unix epoch. */
  datatype Login = Login(loginTime: int)

  /** A `user_sessions` row: session id and expiry instant. */
  datatype Session = Session(sid: string, expire: int)

  datatype Status = Active | LoggedOut

  datatype MergedLogin = MergedLogin(loginTime: int, status: Status, logoutTime: Option<int>, isCurrent: bool)

  /** No stored session expires after instant `t`. */
  predicate NoneAfter(sessions: seq<Session>, t: int) {
    forall j :: 0 <= j < |sessions| ==> sessions[j].expire <= t
  }

  /**
   * Session `k` expires after `t`; no session expiring after `t` has a smaller
   * positive difference `expire - t`; and every earlier session with the same
   * difference is absent, so on a tie the first one in the list is chosen.
   */
  predicate ClosestAfter(sessions: seq<Session>, t: int, k: nat) {
    k < |sessions| && sessions[k].expire > t &&
    (forall j :: 0 <= j < |sessions| && sessions[j].expire > t ==>
       sessions[k].expire - t <= sessions[j].expire - t) &&
    (forall j :: 0 <= j < k && sessions[j].expire > t ==>
       sessions[j].expire - t > sessions[k].expire - t)
  }

  /** At most one session is the closest after a given instant. */
  lemma ClosestAfterUnique(sessions: seq<Session>, t: int, k1: nat, k2: nat)
    requires ClosestAfter(sessions, t, k1) && ClosestAfter(sessions, t, k2)
    ensures k1 == k2
  {
  }

  /** The session search for one login: the position of the matching session, if any. */
  method MatchSession(loginTime: int, sessions: seq<Session>) returns (found: Option<nat>)
    ensures found.Some? ==> ClosestAfter(sessions, loginTime, found.value)
    ensures found.None? ==> NoneAfter(sessions, loginTime)
  {
    found := None;
    var minDiff: Option<int> := None;  // None stands for Infinity
    var i := 0;
    while i < |sessions|
      invariant 0 <= i <= |sessions|
      invariant found.None? <==> minDiff.None?
      invariant found.None? ==> forall j :: 0 <= j < i ==> sessions[j].expire <= loginTime
      invariant found.Some? ==> found.value < i && minDiff.value == sessions[found.value].expire - loginTime
      invariant found.Some? ==> sessions[found.value].expire > loginTime
      invariant found.Some? ==> forall j :: 0 <= j < i && sessions[j].expire > loginTime ==>
        minDiff.value <= sessions[j].expire - loginTime
      invariant found.Some? ==> forall j :: 0 <= j < found.value && sessions[j].expire > loginTime ==>
        sessions[j].expire - loginTime > minDiff.value
    {
      var expireTime := sessions[i].expire;
      if expireTime > loginTime {
        var diff := expireTime - loginTime;
        if minDiff.None? || diff < minDiff.value {
          minDiff := Some(diff);
          found := Some(i);
        }
      }
      i := i + 1;
    }
  }

  /**
   * What the profile page shows for a login at `t`: with no session expiring
   * after it, "Logged Out" with no logout time; otherwise the closest session's
   * expiry is the logout time, the login is Active iff that expiry is after
   * `now`, and it is the current one iff it is Active and that session is the
   * caller's.
   */
  predicate MergedFrom(m: MergedLogin, t: int, sessions: seq<Session>, now: int, currentSid: string) {
    m.loginTime == t &&
    if NoneAfter(sessions, t) then m == MergedLogin(t, LoggedOut, None, false)
    else exists k :: (0 <= k < |sessions| && ClosestAfter(sessions, t, k) &&
      m.logoutTime == Some(sessions[k].expire) &&
      (m.status == Active <==> sessions[k].expire > now) &&
      (m.isCurrent <==> m.status == Active && sessions[k].sid == currentSid))
  }

  /** The merge of the login history with the stored sessions: one entry per login, in login order. */
  method MergeSessions(logins: seq<Login>, sessions: seq<Session>, now: int, currentSid: string)
    returns (merged: seq<MergedLogin>)
    ensures |merged| == |logins|
    ensures forall i :: 0 <= i < |logins| ==>
      MergedFrom(merged[i], logins[i].loginTime, sessions, now, currentSid)
  {
    merged := [];
    var i := 0;
    while i < |logins|
      invariant 0 <= i <= |logins|
      invariant |merged| == i
      invariant forall j :: 0 <= j < i ==> MergedFrom(merged[j], logins[j].loginTime, sessions, now, currentSid)
    {
      var login := logins[i];
      var corresponding := MatchSession(login.loginTime, sessions);
      var entry: MergedLogin;
      if corresponding.Some? {
        var session := sessions[corresponding.value];
        var isActive := session.expire > now;
        entry := MergedLogin(login.loginTime, if isActive then Active else LoggedOut,
                             Some(session.expire), isActive && session.sid == currentSid);
        assert !NoneAfter(sessions, login.loginTime);
      } else {
        entry := MergedLogin(login.loginTime, LoggedOut, None, false);
      }
      merged := merged + [entry];
      i := i + 1;
    }
  }
}
