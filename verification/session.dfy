/**
 * The session controller of src/pages/Home.tsx: the handlers `handleStart`,
 * `handleStop`, `handleTimeoutStop`, `handleReset`, the 100 ms inactivity-interval
 * body and the hit-tracking effect, over the component's session state and the
 * high-score list, recent sessions and stats that `saveScore` updates.
 *
 * Each event is a pure transition on `SessionState`; `Controller` holds the same
 * state in fields and its methods are proved to perform those transitions. Times
 * are milliseconds; `timeout` is the `sessionTimeout` setting in seconds. The
 * detector is driven separately (AudioDetection): the caller passes the result of
 * `startDetection` to `Start`, and the detector's state to `DetectorUpdate`.
 */
module Session {
  import opened Wrappers
  import opened Storage
  import opened Scores

  datatype SessionState = SessionState(
    timeout: real,
    sessionStart: Option<int>,
    sessionHits: nat,
    lastHitTime: int,
    timerArmed: bool,
    timeRemaining: Option<real>,
    highscores: seq<Score>,
    recent: seq<Score>,
    stats: Stats,
    seenActive: bool,
    seenHitCount: nat)

  /** The component as mounted, with the high scores and stats loaded from storage. */
  function Mounted(timeout: real, highscores: seq<Score>, stats: Stats): SessionState {
    SessionState(timeout, None, 0, 0, false, None, highscores, [], stats, false, 0)
  }

  /** `if (sessionStartTime)`: a start time of 0 is falsy. */
  predicate HasStart(s: SessionState) {
    s.sessionStart.Some? && s.sessionStart.value != 0
  }

  /** `saveScore(score, duration)` with the record's `id` and `date` supplied. */
  function Saved(s: SessionState, score: nat, duration: real, id: string, date: string): SessionState {
    var r := NewRecord(id, date, score, duration);
    s.(recent := RecentAfter(s.recent, r),
       highscores := HighscoresAfter(s.highscores, r),
       stats := StatsAfter(s.stats, score, duration))
  }

  /** `startInactivityTimer` (lines 49-74): any running interval is replaced. */
  function StartTimer(s: SessionState): SessionState {
    s.(timerArmed := true, timeRemaining := Some(s.timeout))
  }

  /** `handleStart` (lines 25-47); `success` is what `startDetection` returned. */
  function Start(s: SessionState, success: bool, now: int): SessionState {
    if !success then s
    else
      var started := s.(sessionStart := Some(now), lastHitTime := now, sessionHits := 0);
      if s.timeout > 0.0 then StartTimer(started) else started
  }

  /** `clearTimeouts` (lines 122-128) */
  function Cleared(s: SessionState): SessionState {
    s.(timerArmed := false, timeRemaining := None)
  }

  /** `handleStop` (lines 76-98) */
  function Stop(s: SessionState, now: int, id: string, date: string): SessionState {
    var finalScore := s.sessionHits;
    var cleared := Cleared(s);
    var saved := if HasStart(s)
      then Saved(cleared, finalScore, (now - s.sessionStart.value) as real / 1000.0, id, date)
      else cleared;
    saved.(sessionStart := None, sessionHits := 0)
  }

  /** `handleTimeoutStop` (lines 100-120): saves with the configured timeout as duration. */
  function TimeoutStop(s: SessionState, id: string, date: string): SessionState {
    Saved(s, s.sessionHits, s.timeout, id, date).(sessionStart := None, sessionHits := 0)
  }

  /** `handleReset` (lines 130-135) */
  function Reset(s: SessionState): SessionState {
    Cleared(s).(sessionStart := None, sessionHits := 0)
  }

  /** Seconds left before the inactivity timeout (lines 59-61). */
  function Remaining(s: SessionState, now: int): real {
    s.timeout - (now - s.lastHitTime) as real / 1000.0
  }

  /** One run of the 100 ms interval body (lines 58-69); nothing runs while unarmed. */
  function Tick(s: SessionState, now: int, id: string, date: string): SessionState {
    if !s.timerArmed then s
    else
      var remaining := Remaining(s, now);
      if remaining <= 0.0 then TimeoutStop(s.(timerArmed := false), id, date).(timeRemaining := None)
      else s.(timeRemaining := Some(remaining))
  }

  /**
   * The hit-tracking effect (lines 191-198). React runs it only when one of its
   * dependencies changed since it last ran; `timeout` never changes here.
   */
  function DetectorUpdate(s: SessionState, isActive: bool, hitCount: nat, now: int): SessionState {
    if isActive == s.seenActive && hitCount == s.seenHitCount then s
    else
      var seen := s.(seenActive := isActive, seenHitCount := hitCount);
      if isActive && hitCount > 0 && s.timeout > 0.0 then seen.(lastHitTime := now, sessionHits := hitCount)
      else seen
  }

  /** Everything a save touches. */
  predicate SameRecords(a: SessionState, b: SessionState) {
    a.highscores == b.highscores && a.recent == b.recent && a.stats == b.stats
  }

  /** Exactly one record `r` was saved going from `a` to `b`. */
  predicate SavedOne(a: SessionState, b: SessionState, r: Score) {
    b.recent == RecentAfter(a.recent, r) &&
    b.highscores == HighscoresAfter(a.highscores, r) &&
    b.stats == StatsAfter(a.stats, r.score, r.duration)
  }

  // ---------------------------------------------------------------------------
  // Properties of the transitions
  // ---------------------------------------------------------------------------

  /**
   * A successful start opens a session at `now` with no hits and arms the timer,
   * showing the full timeout, exactly when the timeout is positive; a failed start
   * changes nothing. No record is saved either way.
   */
  lemma StartProperties(s: SessionState, success: bool, now: int)
    ensures var n := Start(s, success, now);
      SameRecords(s, n) && n.timeout == s.timeout &&
      (!success ==> n == s) &&
      (success ==> n.sessionStart == Some(now) && n.lastHitTime == now && n.sessionHits == 0 &&
                   (s.timeout > 0.0 ==> n.timerArmed && n.timeRemaining == Some(s.timeout)) &&
                   (s.timeout <= 0.0 ==> n.timerArmed == s.timerArmed && n.timeRemaining == s.timeRemaining))
  {
  }

  /**
   * The tally and the last hit time follow the detector only when it is active,
   * has counted a hit, the timeout is positive and the detector changed; otherwise
   * they stay. No record is saved and the timer is untouched.
   */
  lemma DetectorUpdateProperties(s: SessionState, isActive: bool, hitCount: nat, now: int)
    ensures var n := DetectorUpdate(s, isActive, hitCount, now);
      SameRecords(s, n) && n.timerArmed == s.timerArmed && n.sessionStart == s.sessionStart &&
      n.seenActive == isActive && n.seenHitCount == hitCount &&
      (if isActive && hitCount > 0 && s.timeout > 0.0 && (isActive, hitCount) != (s.seenActive, s.seenHitCount)
       then n.sessionHits == hitCount && n.lastHitTime == now
       else n.sessionHits == s.sessionHits && n.lastHitTime == s.lastHitTime)
  {
  }

  /**
   * A tick does nothing while the timer is unarmed. Armed, it computes the seconds
   * remaining since the last hit: at or below zero the timer is disarmed and the
   * session is stopped by timeout; above zero only the remaining time changes.
   */
  lemma TickProperties(s: SessionState, now: int, id: string, date: string)
    ensures var n := Tick(s, now, id, date);
      (!s.timerArmed ==> n == s) &&
      (s.timerArmed && Remaining(s, now) > 0.0 ==> n == s.(timeRemaining := Some(Remaining(s, now)))) &&
      (s.timerArmed && Remaining(s, now) <= 0.0 ==>
        !n.timerArmed && n.timeRemaining == None && n.sessionStart == None && n.sessionHits == 0 &&
        SavedOne(s, n, NewRecord(id, date, s.sessionHits, s.timeout)))
  {
  }

  /**
   * A timeout stop always saves exactly one record, scoring the session tally with
   * the configured timeout as its duration, then clears the session.
   */
  lemma TimeoutStopProperties(s: SessionState, id: string, date: string)
    ensures var n := TimeoutStop(s, id, date);
      SavedOne(s, n, NewRecord(id, date, s.sessionHits, s.timeout)) &&
      n.recent[0].score == s.sessionHits && n.recent[0].duration == s.timeout &&
      n.stats.totalSessions == s.stats.totalSessions + 1 &&
      n.sessionStart == None && n.sessionHits == 0 && n.timerArmed == s.timerArmed
  {
  }

  /**
   * A manual stop disarms the timer and clears the session; it saves one record,
   * the tally over the seconds since the start, exactly when a start time is set.
   */
  lemma StopProperties(s: SessionState, now: int, id: string, date: string)
    ensures var n := Stop(s, now, id, date);
      !n.timerArmed && n.timeRemaining == None && n.sessionStart == None && n.sessionHits == 0 &&
      (HasStart(s) ==> SavedOne(s, n, NewRecord(id, date, s.sessionHits, (now - s.sessionStart.value) as real / 1000.0))) &&
      (!HasStart(s) ==> SameRecords(s, n))
  {
  }

  /** Stopping twice in a row saves one record: the second stop finds no session. */
  lemma StopTwiceSavesOnce(s: SessionState, t1: int, t2: int, id1: string, id2: string, d1: string, d2: string)
    ensures var once := Stop(s, t1, id1, d1);
      var twice := Stop(once, t2, id2, d2);
      SameRecords(once, twice) &&
      twice.stats.totalSessions == s.stats.totalSessions + (if HasStart(s) then 1 else 0)
  {
  }

  /** A reset clears the timer, the tally and the session, and saves nothing. */
  lemma ResetProperties(s: SessionState)
    ensures var n := Reset(s);
      SameRecords(s, n) && !n.timerArmed && n.timeRemaining == None &&
      n.sessionStart == None && n.sessionHits == 0 && n.lastHitTime == s.lastHitTime
  {
  }

  /**
   * After a reset the effect sees the zeroed count, so the next hit the detector
   * counts (its count going from 0 to 1) is tracked again: the tally is 1 and the
   * inactivity clock restarts at that hit.
   */
  lemma ResetThenHitTracked(s: SessionState, now: int, t: int)
    requires s.timeout > 0.0
    ensures var afterReset := DetectorUpdate(Reset(s), true, 0, now);
      var hit := DetectorUpdate(afterReset, true, 1, t);
      afterReset.sessionHits == 0 && hit.sessionHits == 1 && hit.lastHitTime == t
  {
  }

  /** The detector states the hit-tracking effect observes, in order. */
  datatype Observation = Observation(isActive: bool, hitCount: nat, now: int)

  function DetectorUpdates(s: SessionState, obs: seq<Observation>): SessionState
    decreases |obs|
  {
    if obs == [] then s
    else DetectorUpdates(DetectorUpdate(s, obs[0].isActive, obs[0].hitCount, obs[0].now), obs[1..])
  }

  lemma {:induction false} ZeroTimeoutKeepsTally(s: SessionState, obs: seq<Observation>)
    requires s.timeout == 0.0
    ensures DetectorUpdates(s, obs).sessionHits == s.sessionHits
    ensures DetectorUpdates(s, obs).sessionStart == s.sessionStart
    ensures DetectorUpdates(s, obs).timeout == 0.0
    ensures SameRecords(s, DetectorUpdates(s, obs))
    decreases |obs|
  {
    if obs != [] {
      ZeroTimeoutKeepsTally(DetectorUpdate(s, obs[0].isActive, obs[0].hitCount, obs[0].now), obs[1..]);
    }
  }

  /**
   * With the timeout set to 0 the tally never follows the detector, so a session
   * started and stopped by hand saves a score of 0 however many hits were counted.
   */
  lemma ZeroTimeoutSavesZero(s: SessionState, t0: int, obs: seq<Observation>, t1: int, id: string, date: string)
    requires s.timeout == 0.0 && t0 != 0
    ensures var n := Stop(DetectorUpdates(Start(s, true, t0), obs), t1, id, date);
      |n.recent| > 0 && n.recent[0].score == 0 && n.stats.totalSessions == s.stats.totalSessions + 1
  {
    var tracked := DetectorUpdates(Start(s, true, t0), obs);
    ZeroTimeoutKeepsTally(Start(s, true, t0), obs);
    assert HasStart(tracked) && tracked.sessionHits == 0;
    StopProperties(tracked, t1, id, date);
  }

  /**
   * A 3-second timeout with one hit right after the start: the tick 3 seconds
   * later stops the session and saves a record scoring 1 with duration 3.
   */
  lemma OneHitThenTimeout(s: SessionState, t0: int, id: string, date: string)
    requires s.timeout == 3.0 && t0 != 0 && !s.seenActive
    ensures var started := Start(s, true, t0);
      var hit := DetectorUpdate(DetectorUpdate(started, true, 0, t0), true, 1, t0);
      var stillOn := Tick(hit, t0 + 2900, id, date);
      var after := Tick(stillOn, t0 + 3000, id, date);
      stillOn.sessionStart == Some(t0) && stillOn.timerArmed &&
      after.recent[0].score == 1 && after.recent[0].duration == 3.0 &&
      after.sessionStart == None && !after.timerArmed &&
      after.stats.totalSessions == s.stats.totalSessions + 1
  {
  }

  // ---------------------------------------------------------------------------
  // The component's state
  // ---------------------------------------------------------------------------

  /** The `Home` component's session state, timer ref and stored lists. */
  class Controller {
    const timeout: real
    var sessionStart: Option<int>
    var sessionHits: nat
    var lastHitTime: int
    var timerArmed: bool
    var timeRemaining: Option<real>
    var highscores: seq<Score>
    var recent: seq<Score>
    var stats: Stats
    var seenActive: bool
    var seenHitCount: nat

    function State(): SessionState
      reads this
    {
      SessionState(timeout, sessionStart, sessionHits, lastHitTime, timerArmed, timeRemaining,
                   highscores, recent, stats, seenActive, seenHitCount)
    }

    constructor (timeout: real, highscores: seq<Score>, stats: Stats)
      ensures State() == Mounted(timeout, highscores, stats)
    {
      this.timeout := timeout;
      sessionStart, sessionHits, lastHitTime := None, 0, 0;
      timerArmed, timeRemaining := false, None;
      this.highscores, recent, this.stats := highscores, [], stats;
      seenActive, seenHitCount := false, 0;
    }

    method SaveScore(score: nat, duration: real, id: string, date: string)
      modifies this
      ensures State() == Saved(old(State()), score, duration, id, date)
    {
      var newScore := NewRecord(id, date, score, duration);
      recent := RecentAfter(recent, newScore);
      highscores := HighscoresAfter(highscores, newScore);
      stats := StatsAfter(stats, score, duration);
    }

    method StartInactivityTimer()
      modifies this
      ensures State() == StartTimer(old(State()))
    {
      timerArmed := true;
      timeRemaining := Some(timeout);
    }

    method HandleStart(success: bool, now: int)
      modifies this
      ensures State() == Start(old(State()), success, now)
    {
      if success {
        sessionStart := Some(now);
        lastHitTime := now;
        sessionHits := 0;
        if timeout > 0.0 {
          StartInactivityTimer();
        }
      }
    }

    method ClearTimeouts()
      modifies this
      ensures State() == Cleared(old(State()))
    {
      timerArmed := false;
      timeRemaining := None;
    }

    method HandleStop(now: int, id: string, date: string)
      modifies this
      ensures State() == Stop(old(State()), now, id, date)
    {
      var finalScore := sessionHits;
      ClearTimeouts();
      if sessionStart.Some? && sessionStart.value != 0 {
        var duration := (now - sessionStart.value) as real / 1000.0;
        SaveScore(finalScore, duration, id, date);
      }
      sessionStart := None;
      sessionHits := 0;
    }

    method HandleTimeoutStop(id: string, date: string)
      modifies this
      ensures State() == TimeoutStop(old(State()), id, date)
    {
      var finalScore := sessionHits;
      SaveScore(finalScore, timeout, id, date);
      sessionStart := None;
      sessionHits := 0;
    }

    method HandleReset()
      modifies this
      ensures State() == Reset(old(State()))
    {
      ClearTimeouts();
      sessionStart := None;
      sessionHits := 0;
    }

    method OnInterval(now: int, id: string, date: string)
      modifies this
      ensures State() == Tick(old(State()), now, id, date)
    {
      if timerArmed {
        var remaining := timeout - (now - lastHitTime) as real / 1000.0;
        if remaining <= 0.0 {
          timerArmed := false;
          HandleTimeoutStop(id, date);
          timeRemaining := None;
        } else {
          timeRemaining := Some(remaining);
        }
      }
    }

    method OnDetectorChange(isActive: bool, hitCount: nat, now: int)
      modifies this
      ensures State() == DetectorUpdate(old(State()), isActive, hitCount, now)
    {
      if isActive != seenActive || hitCount != seenHitCount {
        seenActive, seenHitCount := isActive, hitCount;
        if isActive && hitCount > 0 && timeout > 0.0 {
          lastHitTime := now;
          sessionHits := hitCount;
        }
      }
    }
  }
}
