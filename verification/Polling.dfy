/**
 The polling thread: one loop with four remembered times, over every trace of what its
 iterations read. All times and timeouts are in ticks of the steady clock, nanoseconds.
 */
module Polling {
  import opened ClientProtocol

  const SECOND: nat := 1_000_000_000
  const HEALTH_INTERVAL: nat := 10 * SECOND
  const GRACE_PERIOD: nat := 15 * SECOND
  const LEGACY_IDLE_TIMEOUT: nat := 60 * SECOND

  /** delivery_stall_warning_timeout and delivery_stall_disconnect_timeout; zero or less is off. */
  datatype Timeouts = Timeouts(warning: int, disconnect: int)

  /**
   What one iteration reads: whether the loop is still wanted, the clock, the connection
   state, the session check, is_connected, egress images, the health check and the number
   of messages polled.
   */
  datatype Reading = Reading(
    active: bool, now: nat, conn: ConnectionState, sessionUp: bool, live: bool, images: bool, healthy: bool,
    processed: nat)

  /** A last warning of zero means none yet. */
  datatype Poll = Poll(lastHealth: nat, lastActivity: nat, graceStart: nat, lastWarning: nat)

  datatype Verdict = Continue | Stopped | NoImages | Unhealthy | Stalled

  /** The last three verdicts notify the loss of the connection. */
  predicate Loses(v: Verdict) { v.NoImages? || v.Unhealthy? || v.Stalled? }

  datatype Turn = Turn(poll: Poll, verdict: Verdict, warned: bool)

  function Started(start: nat): Poll { Poll(start, start, start, 0) }

  function IdleLimit(t: Timeouts): nat {
    if t.disconnect > 0 then t.disconnect else LEGACY_IDLE_TIMEOUT
  }

  predicate InGrace(graceStart: nat, now: nat) { now - graceStart < GRACE_PERIOD }

  predicate Up(r: Reading) { r.conn == CONNECTED && r.sessionUp }

  // ---- One iteration ----

  function Iterate(p: Poll, t: Timeouts, r: Reading): Turn {
    if !r.active then Turn(p, Stopped, false)
    else
      var grace := InGrace(p.graceStart, r.now);
      var q := if Up(r) && grace then p.(graceStart := r.now) else p;
      if !grace && !(r.live && r.images) then Turn(q, NoImages, false)
      else if grace && r.conn == DISCONNECTED then Turn(q, Stopped, false)
      else Checked(q, t, r, grace)
  }

  function Checked(p: Poll, t: Timeouts, r: Reading, grace: bool): Turn {
    var due := r.now - p.lastHealth >= HEALTH_INTERVAL;
    if due && !r.healthy && !grace then Turn(p, Unhealthy, false)
    else Polled(if due then p.(lastHealth := r.now) else p, t, r, grace)
  }

  function Polled(p: Poll, t: Timeouts, r: Reading, grace: bool): Turn {
    if r.processed > 0 then Turn(p.(lastActivity := r.now), Continue, false)
    else if grace then Turn(p, Continue, false)
    else
      var warns := Warns(p, t, r);
      var q := if warns then p.(lastWarning := r.now) else p;
      Turn(q, if r.now - p.lastActivity >= IdleLimit(t) then Stalled else Continue, warns)
  }

  predicate Warns(p: Poll, t: Timeouts, r: Reading) {
    && t.warning > 0 && r.now - p.lastActivity >= t.warning
    && (p.lastWarning == 0 || r.now - p.lastWarning >= t.warning)
  }

  // ---- Traces ----

  function StateAfter(start: nat, t: Timeouts, rs: seq<Reading>): Poll
    decreases |rs|
  {
    if rs == [] then Started(start) else Iterate(StateAfter(start, t, rs[..|rs| - 1]), t, rs[|rs| - 1]).poll
  }

  function TurnAt(start: nat, t: Timeouts, rs: seq<Reading>, i: nat): Turn
    requires i < |rs|
  {
    Iterate(StateAfter(start, t, rs[..i]), t, rs[i])
  }

  /** The loop gets as far as iteration i. */
  predicate Reaches(start: nat, t: Timeouts, rs: seq<Reading>, i: nat)
    requires i <= |rs|
  {
    forall j :: 0 <= j < i ==> TurnAt(start, t, rs, j).verdict == Continue
  }

  lemma StateStep(start: nat, t: Timeouts, rs: seq<Reading>, i: nat)
    requires i < |rs|
    ensures StateAfter(start, t, rs[..i + 1]) == TurnAt(start, t, rs, i).poll
  {
    assert rs[..i + 1][..i] == rs[..i] && rs[..i + 1][i] == rs[i];
  }

  /** The body of the loop. */
  method PollOnce(p: Poll, t: Timeouts, r: Reading) returns (turn: Turn)
    requires r.active
    ensures turn == Iterate(p, t, r)
  {
    var lastHealth, lastActivity, graceStart, lastWarning := p.lastHealth, p.lastActivity, p.graceStart, p.lastWarning;
    var verdict, warned := Continue, false;
    var grace := r.now - graceStart < GRACE_PERIOD;
    if r.conn == CONNECTED && grace && r.sessionUp {
      graceStart := r.now;
    }
    if !grace && !(r.live && r.images) {
      verdict := NoImages;
    } else if grace && r.conn == DISCONNECTED {
      verdict := Stopped;
    } else if r.now - lastHealth >= HEALTH_INTERVAL && !r.healthy && !grace {
      verdict := Unhealthy;
    } else {
      if r.now - lastHealth >= HEALTH_INTERVAL {
        lastHealth := r.now;
      }
      if r.processed > 0 {
        lastActivity := r.now;
      } else if !grace {
        var idle := r.now - lastActivity;
        if t.warning > 0 && idle >= t.warning && (lastWarning == 0 || r.now - lastWarning >= t.warning) {
          warned := true;
          lastWarning := r.now;
        }
        if (t.disconnect > 0 && idle >= t.disconnect) || (t.disconnect <= 0 && idle >= LEGACY_IDLE_TIMEOUT) {
          verdict := Stalled;
        }
      }
    }
    turn := Turn(Poll(lastHealth, lastActivity, graceStart, lastWarning), verdict, warned);
  }

  /** polling_worker: its log is the turns of the trace, up to the first that ends the loop. */
  method PollingWorker(start: nat, t: Timeouts, rs: seq<Reading>) returns (log: seq<Turn>)
    ensures |log| <= |rs|
    ensures forall i :: 0 <= i < |log| ==> log[i] == TurnAt(start, t, rs, i)
    ensures forall i :: 0 <= i < |log| - 1 ==> log[i].verdict == Continue
    ensures |log| < |rs| ==> log != [] && log[|log| - 1].verdict != Continue
  {
    var poll, verdict, i := Poll(start, start, start, 0), Continue, 0;
    log := [];
    assert rs[..0] == [];
    while i < |rs| && verdict == Continue
      invariant i == |log| <= |rs| && poll == StateAfter(start, t, rs[..i])
      invariant forall j :: 0 <= j < i ==> log[j] == TurnAt(start, t, rs, j)
      invariant forall j :: 0 <= j < i - 1 ==> log[j].verdict == Continue
      invariant verdict == if i == 0 then Continue else log[i - 1].verdict
    {
      StateStep(start, t, rs, i);
      var turn := Turn(poll, Stopped, false);
      if rs[i].active {
        turn := PollOnce(poll, t, rs[i]);
      }
      poll, verdict := turn.poll, turn.verdict;
      log := log + [turn];
      i := i + 1;
    }
  }

  // ---- What the remembered times mean ----

  /** When messages last arrived, or the thread started. */
  function LastActivity(start: nat, rs: seq<Reading>): nat
    decreases |rs|
  {
    if rs == [] then start
    else if rs[|rs| - 1].processed > 0 then rs[|rs| - 1].now
    else LastActivity(start, rs[..|rs| - 1])
  }

  /** When the session was last seen up within 15 s of the previous such time, or of the start. */
  function LastRenewal(start: nat, rs: seq<Reading>): nat
    decreases |rs|
  {
    if rs == [] then start
    else
      var before, r := LastRenewal(start, rs[..|rs| - 1]), rs[|rs| - 1];
      if Up(r) && InGrace(before, r.now) then r.now else before
  }

  /** When the connection was last checked in full, at least 10 s after the check before. */
  function LastCheck(start: nat, rs: seq<Reading>): nat
    decreases |rs|
  {
    if rs == [] then start
    else
      var before, now := LastCheck(start, rs[..|rs| - 1]), rs[|rs| - 1].now;
      if now - before >= HEALTH_INTERVAL then now else before
  }

  /** Nothing was received now, and nothing for that long. */
  predicate IdleFor(start: nat, before: seq<Reading>, r: Reading, span: int) {
    r.processed == 0 && r.now - LastActivity(start, before) >= span
  }

  /** When the last stall warning was given; zero for never. */
  function LastWarning(start: nat, t: Timeouts, rs: seq<Reading>): nat
    decreases |rs|, 0
  {
    if rs == [] then 0
    else
      var before, r := rs[..|rs| - 1], rs[|rs| - 1];
      if WarnsAt(start, t, before, r) then r.now else LastWarning(start, t, before)
  }

  /** Out of grace, idle for the warning timeout, and that long after the last warning. */
  predicate WarnsAt(start: nat, t: Timeouts, before: seq<Reading>, r: Reading)
    decreases |before|, 1
  {
    && !InGrace(LastRenewal(start, before), r.now)
    && t.warning > 0 && IdleFor(start, before, r, t.warning)
    && (LastWarning(start, t, before) == 0 || r.now - LastWarning(start, t, before) >= t.warning)
  }

  /** What the loop remembers is what the trace says. */
  lemma {:induction false} RememberedTimes(start: nat, t: Timeouts, rs: seq<Reading>, i: nat)
    requires i <= |rs| && Reaches(start, t, rs, i)
    ensures StateAfter(start, t, rs[..i]) ==
            Poll(LastCheck(start, rs[..i]), LastActivity(start, rs[..i]), LastRenewal(start, rs[..i]),
                 LastWarning(start, t, rs[..i]))
    decreases i
  {
    if i > 0 {
      RememberedTimes(start, t, rs, i - 1);
      StateStep(start, t, rs, i - 1);
      assert rs[..i][..i - 1] == rs[..i - 1] && rs[..i][i - 1] == rs[i - 1];
      assert TurnAt(start, t, rs, i - 1).verdict == Continue;
    }
  }

  predicate Ascending(start: nat, rs: seq<Reading>) {
    && (forall i :: 0 <= i < |rs| ==> start <= rs[i].now)
    && (forall i, j :: 0 <= i < j < |rs| ==> rs[i].now <= rs[j].now)
  }

  lemma {:induction false} ActivityBounds(start: nat, rs: seq<Reading>, i: nat)
    requires Ascending(start, rs) && i <= |rs|
    ensures start <= LastActivity(start, rs[..i])
    ensures forall j :: 0 <= j < i && rs[j].processed > 0 ==> rs[j].now <= LastActivity(start, rs[..i])
    decreases i
  {
    if i > 0 {
      ActivityBounds(start, rs, i - 1);
      assert rs[..i][..i - 1] == rs[..i - 1];
      if rs[i - 1].processed == 0 {
        assert LastActivity(start, rs[..i]) == LastActivity(start, rs[..i - 1]);
      }
    }
  }

  // ---- Stalls ----

  /** The connection is checked in full at this iteration, and the check fails. */
  predicate FailsHealthCheck(start: nat, before: seq<Reading>, r: Reading) {
    r.now - LastCheck(start, before) >= HEALTH_INTERVAL && !r.healthy
  }

  /** The loop gets past its checks out of grace. */
  predicate PassesChecks(start: nat, before: seq<Reading>, r: Reading) {
    && r.active && !InGrace(LastRenewal(start, before), r.now)
    && r.live && r.images && !FailsHealthCheck(start, before, r)
  }

  /**
   When the loop declares a stall, on any trace: exactly when it is out of grace, the
   connection passes every check, and nothing was received now or at any time in the
   configured idle span (60 s when none is configured).
   */
  lemma StallExactly(start: nat, t: Timeouts, rs: seq<Reading>, i: nat)
    requires i < |rs| && Reaches(start, t, rs, i)
    ensures TurnAt(start, t, rs, i).verdict == Stalled <==>
              PassesChecks(start, rs[..i], rs[i]) && IdleFor(start, rs[..i], rs[i], IdleLimit(t))
  {
    RememberedTimes(start, t, rs, i);
  }

  /** When it ends in any of the other ways, exactly. */
  lemma EndsExactly(start: nat, t: Timeouts, rs: seq<Reading>, i: nat)
    requires i < |rs| && Reaches(start, t, rs, i)
    ensures var r, before := rs[i], rs[..i];
            var grace := InGrace(LastRenewal(start, before), r.now);
            var v := TurnAt(start, t, rs, i).verdict;
            && (v == Stopped <==> !r.active || (grace && r.conn == DISCONNECTED))
            && (v == NoImages <==> r.active && !grace && !(r.live && r.images))
            && (v == Unhealthy <==> r.active && !grace && r.live && r.images && FailsHealthCheck(start, before, r))
  {
    RememberedTimes(start, t, rs, i);
  }

  /** When it warns of a stall, exactly. */
  lemma WarnsExactly(start: nat, t: Timeouts, rs: seq<Reading>, i: nat)
    requires i < |rs| && Reaches(start, t, rs, i)
    ensures TurnAt(start, t, rs, i).warned <==>
              PassesChecks(start, rs[..i], rs[i]) && WarnsAt(start, t, rs[..i], rs[i])
  {
    RememberedTimes(start, t, rs, i);
  }

  lemma StallMeansSilence(start: nat, t: Timeouts, rs: seq<Reading>, i: nat, j: nat)
    requires Ascending(start, rs) && j <= i < |rs| && Reaches(start, t, rs, i)
    requires TurnAt(start, t, rs, i).verdict == Stalled && rs[i].now - rs[j].now < IdleLimit(t)
    ensures rs[j].processed == 0 && rs[i].now - start >= IdleLimit(t)
  {
    StallExactly(start, t, rs, i);
    ActivityBounds(start, rs, i);
  }

  /** No loss of any kind is notified within the grace period. */
  lemma LossOnlyOutOfGrace(start: nat, t: Timeouts, rs: seq<Reading>, i: nat)
    requires i < |rs| && Reaches(start, t, rs, i) && Loses(TurnAt(start, t, rs, i).verdict)
    ensures !InGrace(LastRenewal(start, rs[..i]), rs[i].now)
  {
    RememberedTimes(start, t, rs, i);
  }

  // ---- The grace period ----

  /** Readings follow one another, and the start, by less than the grace period. */
  predicate Frequent(start: nat, rs: seq<Reading>) {
    && (rs != [] ==> rs[0].now - start < GRACE_PERIOD)
    && (forall i, j :: 0 <= i && j == i + 1 < |rs| ==> rs[j].now - rs[i].now < GRACE_PERIOD)
  }

  /**
   While the client is CONNECTED with a live session and iterations are under 15 s apart,
   every iteration renews the grace period: the loop goes on, without a stall, a loss or a
   warning, however long nothing is received.
   */
  lemma {:induction false} GraceIsRenewed(start: nat, t: Timeouts, rs: seq<Reading>, i: nat)
    requires Frequent(start, rs) && (forall j :: 0 <= j < |rs| ==> rs[j].active && Up(rs[j])) && i < |rs|
    ensures var turn := TurnAt(start, t, rs, i);
            turn.verdict == Continue && !turn.warned && turn.poll.graceStart == rs[i].now
    decreases i
  {
    assert Up(rs[i]);
    if i == 0 {
      assert rs[..i] == [];
    } else {
      GraceIsRenewed(start, t, rs, i - 1);
      StateStep(start, t, rs, i - 1);
    }
  }

  lemma {:induction false} RenewalHasPassed(start: nat, rs: seq<Reading>, i: nat, j: nat)
    requires Ascending(start, rs) && i <= j < |rs| && !InGrace(LastRenewal(start, rs[..i]), rs[i].now)
    ensures LastRenewal(start, rs[..j]) == LastRenewal(start, rs[..i])
    decreases j
  {
    if i < j {
      RenewalHasPassed(start, rs, i, j - 1);
      assert rs[..j][..j - 1] == rs[..j - 1];
    }
  }

  /** Leaving the grace period is for good: no later iteration of the thread is in it again. */
  lemma GraceNeverReturns(start: nat, rs: seq<Reading>, i: nat, j: nat)
    requires Ascending(start, rs) && i <= j < |rs| && !InGrace(LastRenewal(start, rs[..i]), rs[i].now)
    ensures !InGrace(LastRenewal(start, rs[..j]), rs[j].now)
  {
    RenewalHasPassed(start, rs, i, j);
  }

  // ---- A failing session check ----

  /** is_connected asks for the state and the session itself, so it fails when they do. */
  predicate Failing(r: Reading) {
    r.active && !Up(r) && !r.live && r.conn != DISCONNECTED
  }

  lemma {:induction false} NoRenewalWhileDown(start: nat, rs: seq<Reading>, k: nat, i: nat)
    requires k <= i <= |rs| && forall j :: k <= j < i ==> !Up(rs[j])
    ensures LastRenewal(start, rs[..i]) == LastRenewal(start, rs[..k])
    decreases i
  {
    if k < i {
      NoRenewalWhileDown(start, rs, k, i - 1);
      assert rs[..i][..i - 1] == rs[..i - 1];
    }
  }

  /**
   Once the session check keeps failing from iteration k on, the loop goes on until the
   first iteration at least 15 s after the last renewal, and that one notifies the loss.
   */
  lemma {:induction false} LossAfterGrace(start: nat, t: Timeouts, rs: seq<Reading>, k: nat, i: nat)
    requires k <= i < |rs| && Reaches(start, t, rs, k) && forall j :: k <= j <= i ==> Failing(rs[j])
    requires forall j :: k <= j < i ==> InGrace(LastRenewal(start, rs[..k]), rs[j].now)
    ensures Reaches(start, t, rs, i)
    ensures TurnAt(start, t, rs, i).verdict ==
            if InGrace(LastRenewal(start, rs[..k]), rs[i].now) then Continue else NoImages
    decreases i
  {
    if k < i {
      LossAfterGrace(start, t, rs, k, i - 1);
    }
    RememberedTimes(start, t, rs, i);
    NoRenewalWhileDown(start, rs, k, i);
  }

  // ---- Warnings ----

  lemma {:induction false} WarningRemembered(start: nat, t: Timeouts, rs: seq<Reading>, i: nat, j: nat)
    requires Ascending(start, rs) && i < j <= |rs| && TurnAt(start, t, rs, i).warned
    ensures StateAfter(start, t, rs[..j]).lastWarning >= rs[i].now
    decreases j
  {
    StateStep(start, t, rs, j - 1);
    if i < j - 1 {
      WarningRemembered(start, t, rs, i, j - 1);
    }
  }

  /** Two stall warnings are at least the warning timeout apart. */
  lemma WarningsApart(start: nat, t: Timeouts, rs: seq<Reading>, i: nat, j: nat)
    requires Ascending(start, rs) && i < j < |rs|
    requires TurnAt(start, t, rs, i).warned && TurnAt(start, t, rs, j).warned
    ensures t.warning > 0 && rs[j].now - rs[i].now >= t.warning
  {
    WarningRemembered(start, t, rs, i, j);
  }
}
