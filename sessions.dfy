/** The keyed store of timed interview sessions (backend/sessions.py).
    Times are seconds since an arbitrary origin, passed in as `now`; the
    session id `uuid4` would draw is passed in as well. A session is a
    value in the store's map: where the source mutates the session object
    `get` handed out, the model updates the stored value through the store. */
module Sessions {
  import opened Wrappers
  import opened Text

  const DefaultDurationMinutes := 60
  const MinDurationMinutes := 1
  const MaxDurationMinutes := 120

  datatype Status = Active | Expired

  datatype Session = Session(
    sessionId: string,
    questionName: string,
    startedAt: real,
    durationMinutes: int,
    status: Status,
    finalScore: Option<real>,
    currentStageIndex: nat)

  /** The duration `create` settles on: the requested minutes, 60 when none
      (or 0) is given, clamped into [1, 120]. */
  function ClampDuration(requested: Option<int>): (d: int)
    ensures MinDurationMinutes <= d <= MaxDurationMinutes
    ensures requested.Some? && requested.value != 0 && MinDurationMinutes <= requested.value <= MaxDurationMinutes
      ==> d == requested.value
    ensures (requested.None? || requested == Some(0)) ==> d == DefaultDurationMinutes
    ensures requested.Some? && requested.value > MaxDurationMinutes ==> d == MaxDurationMinutes
    ensures requested.Some? && requested.value < 0 ==> d == MinDurationMinutes
  {
    var duration := if requested.None? || requested.value == 0 then DefaultDurationMinutes else requested.value;
    if duration < MinDurationMinutes then MinDurationMinutes
    else if duration > MaxDurationMinutes then MaxDurationMinutes
    else duration
  }

  /** `remaining_seconds`: whole seconds left before the session's
      deadline, never negative. */
  function Remaining(s: Session, now: real): (r: int)
    ensures r >= 0
    ensures r == 0 <==> s.startedAt + 60.0 * s.durationMinutes as real - now < 1.0
  {
    var delta := s.startedAt + 60.0 * s.durationMinutes as real - now;
    var t := Trunc(delta);
    if t > 0 then t else 0
  }

  /** The lazy expiry `get` applies: an active session with no time left
      becomes expired. */
  function Refresh(s: Session, now: real): (r: Session)
    ensures r == s || r == s.(status := Expired)
    ensures r.status == Expired <==> (s.status == Expired || Remaining(s, now) == 0)
  {
    if s.status.Active? && Remaining(s, now) <= 0 then s.(status := Expired) else s
  }

  /** What a session may become over time: its stage index never goes down
      and, once expired, it stays expired. */
  predicate Progressed(before: Session, after: Session) {
    after.currentStageIndex >= before.currentStageIndex
    && (before.status == Expired ==> after.status == Expired)
  }

  class SessionStore {
    var sessions: map<string, Session>

    constructor ()
      ensures sessions == map[]
    {
      sessions := map[];
    }

    /** `create`: a new active session, with no score and at stage 0,
        stored under `sessionId`. */
    method Create(questionName: string, durationMinutes: Option<int>, sessionId: string, now: real)
      returns (s: Session)
      modifies this
      ensures s == Session(sessionId, questionName, now, ClampDuration(durationMinutes), Active, None, 0)
      ensures sessions == old(sessions)[sessionId := s]
    {
      var duration := if durationMinutes.None? || durationMinutes.value == 0 then DefaultDurationMinutes
                      else durationMinutes.value;
      if duration > MaxDurationMinutes {
        duration := MaxDurationMinutes;
      }
      if duration < MinDurationMinutes {
        duration := MinDurationMinutes;
      }
      s := Session(sessionId, questionName, now, duration, Active, None, 0);
      sessions := sessions[sessionId := s];
    }

    /** `get`: None for an unknown id; otherwise the session after lazy expiry,
        which is also what the store keeps. */
    method Get(sessionId: string, now: real) returns (r: Option<Session>)
      modifies this
      ensures sessionId !in old(sessions) ==> r.None? && sessions == old(sessions)
      ensures sessionId in old(sessions) ==>
        r == Some(Refresh(old(sessions)[sessionId], now)) && sessions == old(sessions)[sessionId := r.value]
      ensures forall id :: id in old(sessions) ==> id in sessions && Progressed(old(sessions)[id], sessions[id])
    {
      if sessionId !in sessions {
        return None;
      }
      var session := sessions[sessionId];
      if session.status == Active && Remaining(session, now) <= 0 {
        session := session.(status := Expired);
      }
      sessions := sessions[sessionId := session];
      r := Some(session);
    }

    /** `remaining_seconds`. */
    method RemainingSeconds(session: Session, now: real) returns (r: int)
      ensures r == Remaining(session, now)
    {
      var delta := session.startedAt + 60.0 * session.durationMinutes as real - now;
      r := Trunc(delta);
      if r < 0 {
        r := 0;
      }
    }

    /** `mark_score`: overwrites the score on every call and expires a
        session whose time is up; an unknown id changes nothing. */
    method MarkScore(sessionId: string, score: real, now: real)
      modifies this
      ensures sessionId !in old(sessions) ==> sessions == old(sessions)
      ensures sessionId in old(sessions) ==>
        sessions == old(sessions)[sessionId := Refresh(old(sessions)[sessionId].(finalScore := Some(score)), now)]
      ensures forall id :: id in old(sessions) ==> id in sessions && Progressed(old(sessions)[id], sessions[id])
    {
      if sessionId in sessions {
        var session := sessions[sessionId].(finalScore := Some(score));
        if session.status != Expired && Remaining(session, now) <= 0 {
          session := session.(status := Expired);
        }
        sessions := sessions[sessionId := session];
      }
    }

    /** `advance_stage`: the stage index goes up by exactly one, with no
        upper bound; an unknown id changes nothing. */
    method AdvanceStage(sessionId: string)
      modifies this
      ensures sessionId !in old(sessions) ==> sessions == old(sessions)
      ensures sessionId in old(sessions) ==>
        sessions == old(sessions)[sessionId := old(sessions)[sessionId].(currentStageIndex := old(sessions)[sessionId].currentStageIndex + 1)]
      ensures forall id :: id in old(sessions) ==> id in sessions && Progressed(old(sessions)[id], sessions[id])
    {
      if sessionId in sessions {
        var session := sessions[sessionId];
        sessions := sessions[sessionId := session.(currentStageIndex := session.currentStageIndex + 1)];
      }
    }

    /** The status write `execute_code` makes on the session `get` handed out. */
    method Expire(sessionId: string)
      modifies this
      ensures sessionId !in old(sessions) ==> sessions == old(sessions)
      ensures sessionId in old(sessions) ==> sessions == old(sessions)[sessionId := old(sessions)[sessionId].(status := Expired)]
      ensures forall id :: id in old(sessions) ==> id in sessions && Progressed(old(sessions)[id], sessions[id])
    {
      if sessionId in sessions {
        sessions := sessions[sessionId := sessions[sessionId].(status := Expired)];
      }
    }
  }

  // ---------------------------------------------------------------- lemmas

  /** Remaining time never grows as the clock moves forward. */
  lemma RemainingMonotone(s: Session, earlier: real, later: real)
    requires earlier <= later
    ensures Remaining(s, later) <= Remaining(s, earlier)
  {
    var d1 := s.startedAt + 60.0 * s.durationMinutes as real - earlier;
    var d2 := s.startedAt + 60.0 * s.durationMinutes as real - later;
    assert d2 <= d1;
    TruncMonotone(d2, d1);
  }

  /** Once `get` sees a session expired, it sees it expired at every later time. */
  lemma ExpiryIsPermanent(s: Session, earlier: real, later: real)
    requires earlier <= later
    requires Refresh(s, earlier).status == Expired
    ensures Refresh(s, later).status == Expired
    ensures Refresh(Refresh(s, earlier), later) == Refresh(s, earlier)
  {
    RemainingMonotone(s, earlier, later);
  }

  /** `Progressed` is a preorder, so any run of store operations keeps it. */
  lemma ProgressedTransitive(a: Session, b: Session, c: Session)
    requires Progressed(a, b) && Progressed(b, c)
    ensures Progressed(a, c)
  {
  }

  /** A fresh session is active, has no score, is at stage 0 and lasts
      between 1 and 120 minutes; its time is not up until its duration has passed. */
  lemma FreshSession(questionName: string, durationMinutes: Option<int>, sessionId: string, now: real, later: real)
    requires now <= later < now + 60.0 * ClampDuration(durationMinutes) as real - 1.0
    ensures var s := Session(sessionId, questionName, now, ClampDuration(durationMinutes), Active, None, 0);
      Refresh(s, later) == s && Remaining(s, later) >= 1
  {
  }
}
