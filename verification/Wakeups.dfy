/** What the eventcount promises: no lost wake-up, and answers that mean what
    they say. */
module Wakeups {
  import opened Eventcount
  import opened EventcountKept

  // ------------------------------------------------------- no lost wake-up

  // A wake-up still due on side d.
  ghost predicate WakeDue(t: Thread, d: Side) {
    && t.Call?
    && match t.at
       case Cancel(Then(e, w)) => e == d && w > 0
       case Notify(e, w) => e == d && w > 0
       case Bump(e, w) => e == d && w > 0
       case Wake(e, w) => e == d && w > 0
       case _ => false
  }

  // A waiter that looks at its side again before it sleeps.
  ghost predicate WillLook(t: Thread, d: Side) {
    && t.Call? && (t.op.Move? || t.op.Peek?) && t.op.d == d
    && (t.at.Closed1? || t.at.Look1? || t.at.Prepare? || t.at.ReadKey? || t.at.Closed2? || t.at.Look2?
        || t.at == Cancel(Again))
  }

  ghost predicate IsClosing(t: Thread, d: Side) {
    t.Call? && t.op.Close? && t.op.d == d && (t.at.CloseBump? || t.at.CloseWake?)
  }

  lemma {:induction false} SomebodyCounts(ts: seq<Thread>, k: Kind, d: Side) returns (q: nat)
    requires Total(ts, k, d) > 0
    ensures q < |ts| && Measure(k, d, ts[q]) > 0
  {
    q := |ts| - 1;
    if Measure(k, d, ts[q]) == 0 { q := SomebodyCounts(ts[..q], k, d); }
  }

  // In every reachable state, while a thread sleeps on a side: no more is
  // available there than the wake-ups due and the waiters about to look; so
  // if anything is, some thread has yet to wake a sleeper or to look; and if
  // the side is closed, its closer has yet to wake them all.
  lemma NoLostWakeUp(run: seq<State>, i: nat, p: nat, d: Side)
    requires IsRun(run) && i < |run| && p < |run[i].threads| && Sleeps(run[i].threads[p], d)
    ensures Get(run[i], d).avail <= Total(run[i].threads, Pending, d) + Total(run[i].threads, Bound, d)
    ensures Get(run[i], d).avail > 0 ==>
              exists q :: 0 <= q < |run[i].threads| && (WakeDue(run[i].threads[q], d) || WillLook(run[i].threads[q], d))
    ensures Get(run[i], d).closed ==> exists q :: 0 <= q < |run[i].threads| && IsClosing(run[i].threads[q], d)
  {
    RunHolds(run, i);
    var ts := run[i].threads;
    assert ThreadOk(Get(run[i], d), d, ts, ts[p]);
    if Total(ts, Pending, d) > 0 {
      var q := SomebodyCounts(ts, Pending, d);
      assert WakeDue(ts[q], d);
    }
    if Total(ts, Bound, d) > 0 {
      var q := SomebodyCounts(ts, Bound, d);
      assert WillLook(ts[q], d);
    }
    if Total(ts, Closing, d) > 0 {
      var q := SomebodyCounts(ts, Closing, d);
      assert IsClosing(ts[q], d);
    }
  }

  // The same one step earlier: a waiter past its last look, on an epoch that
  // has not moved, will be stopped by a bump of the epoch still to come, for
  // whatever is available and for a close.
  lemma NoLateSleep(run: seq<State>, i: nat, p: nat, d: Side)
    requires IsRun(run) && i < |run| && p < |run[i].threads|
    requires AboutTo(run[i].threads[p], d, Get(run[i], d).epoch)
    ensures Get(run[i], d).avail <= Total(run[i].threads, Early, d) + Total(run[i].threads, Bound, d)
    ensures Get(run[i], d).avail > 0 ==>
              exists q :: 0 <= q < |run[i].threads|
                     && ((WakeDue(run[i].threads[q], d) && !run[i].threads[q].at.Wake?)
                         || WillLook(run[i].threads[q], d))
    ensures Get(run[i], d).closed ==>
              exists q :: 0 <= q < |run[i].threads| && IsClosing(run[i].threads[q], d)
                && run[i].threads[q].at.CloseBump?
  {
    RunHolds(run, i);
    var ts := run[i].threads;
    assert ThreadOk(Get(run[i], d), d, ts, ts[p]);
    if Total(ts, Early, d) > 0 {
      var q := SomebodyCounts(ts, Early, d);
      assert WakeDue(ts[q], d) && !ts[q].at.Wake?;
    }
    if Total(ts, Bound, d) > 0 {
      var q := SomebodyCounts(ts, Bound, d);
      assert WillLook(ts[q], d);
    }
    if Total(ts, EarlyClose, d) > 0 {
      var q := SomebodyCounts(ts, EarlyClose, d);
      assert IsClosing(ts[q], d) && ts[q].at.CloseBump?;
    }
  }

  // Nothing runs: every thread is outside, asleep, or about to return.
  ghost predicate Quiet(s: State) {
    forall q :: 0 <= q < |s.threads| ==>
      s.threads[q].Idle? || s.threads[q].at.Done? || Sleeps(s.threads[q], Elements) || Sleeps(s.threads[q], Room)
  }

  lemma QuietSleeper(run: seq<State>, i: nat, p: nat, d: Side)
    requires IsRun(run) && i < |run| && Quiet(run[i]) && p < |run[i].threads| && Sleeps(run[i].threads[p], d)
    ensures Get(run[i], d).avail == 0 && !Get(run[i], d).closed
  {
    NoLostWakeUp(run, i, p, d);
  }

  // When nothing runs any more, whoever sleeps has reason to: nothing is
  // available on its side, and its side is not closed. On a queue with room
  // for anything, threads do not sleep on both sides.
  lemma QuietSleepers(run: seq<State>, i: nat, p: nat, d: Side)
    requires IsRun(run) && i < |run| && Quiet(run[i]) && p < |run[i].threads| && Sleeps(run[i].threads[p], d)
    ensures Get(run[i], d).avail == 0 && !Get(run[i], d).closed
    ensures run[i].cap > 0 ==> forall q :: 0 <= q < |run[i].threads| ==> !Sleeps(run[i].threads[q], Other(d))
  {
    QuietSleeper(run, i, p, d);
    RunHolds(run, i);
    forall q | 0 <= q < |run[i].threads| && run[i].cap > 0 ensures !Sleeps(run[i].threads[q], Other(d)) {
      if Sleeps(run[i].threads[q], Other(d)) { QuietSleeper(run, i, q, Other(d)); }
    }
  }

  // ---------------------------------------------------------------- answers

  ghost predicate Waiting(t: Thread) {
    t.Call? && (t.op.Move? || t.op.Peek?)
  }

  ghost predicate SawClosed(t: Thread) {
    Waiting(t) && ((t.at.Look1? && t.at.c) || (t.at.Look2? && t.at.c))
  }

  ghost predicate Refused(t: Thread) {
    Waiting(t) && (t.at == Done(false) || t.at == Cancel(Finished))
  }

  // Where a thread that has seen the close, or has been refused, comes from.
  ghost predicate Came(s: State, t: Thread, t': Thread) {
    && (SawClosed(t') ==> t == t' || Get(s, t'.op.d).closed)
    && (Refused(t') ==>
          && Waiting(t) && t.op == t'.op
          && (|| Refused(t)
              || (Get(s, t.op.d).avail == 0 && (SawClosed(t) || (t.op.Move? && t.op.timed)))))
  }

  lemma WaitCame(s: State, s': State, q: nat)
    requires WaitStep(s, s', q)
    ensures q < |s.threads| && s'.threads == s.threads[q := s'.threads[q]] && Came(s, s.threads[q], s'.threads[q])
  {
    if !LookFinds(s, s', q) && !CountOut(s, s', q) {
      assert s'.threads == s.threads[q := s'.threads[q]];
    }
  }

  lemma OtherCame(s: State, s': State, q: nat, p: nat)
    requires p < |s'.threads|
    requires NotifyStep(s, s', q) || (exists r: nat :: WakeOne(s, s', q, r) || WakeClosed(s, s', q, r))
    ensures p < |s.threads| && (s'.threads[p] == s.threads[p] || (!SawClosed(s'.threads[p]) && !Refused(s'.threads[p])))
  {}

  lemma ThreadCame(s: State, s': State, p: nat)
    requires Next(s, s') && p < |s'.threads|
    ensures p < |s.threads| && Came(s, s.threads[p], s'.threads[p])
  {
    var q: nat :| Step(s, s', q);
    if WaitStep(s, s', q) {
      WaitCame(s, s', q);
    } else if !(exists op :: Begin(s, s', q, op)) {
      OtherCame(s, s', q, p);
    }
  }

  lemma ClosedStays(s: State, s': State, d: Side)
    requires Next(s, s') && Get(s, d).closed
    ensures Get(s', d).closed
  {
    var q: nat :| Step(s, s', q);
    StepTotals(s, s', q);
  }

  lemma ClosedSeenStep(s: State, s': State, p: nat)
    requires Next(s, s') && p < |s'.threads| && SawClosed(s'.threads[p])
    requires p < |s.threads| && SawClosed(s.threads[p]) ==> Get(s, s.threads[p].op.d).closed
    ensures Get(s', s'.threads[p].op.d).closed
  {
    ThreadCame(s, s', p);
    ClosedStays(s, s', s'.threads[p].op.d);
  }

  // Thread p has seen a close only of a closed side.
  ghost predicate SeesRight(s: State, p: nat) {
    p < |s.threads| && SawClosed(s.threads[p]) ==> Get(s, s.threads[p].op.d).closed
  }

  ghost predicate SeesRightAt(run: seq<State>, p: nat, k: nat)
    requires k + 1 < |run|
  {
    SeesRight(run[k], p) ==> SeesRight(run[k + 1], p)
  }

  lemma ClosedSeenAt(run: seq<State>, p: nat, k: nat)
    requires IsRun(run) && k + 1 < |run|
    ensures SeesRightAt(run, p, k)
  {
    assert Next(run[k], run[k + 1]);
    if SeesRight(run[k], p) && p < |run[k + 1].threads| && SawClosed(run[k + 1].threads[p]) {
      ClosedSeenStep(run[k], run[k + 1], p);
    }
  }

  lemma {:induction false} ClosedSeenOn(run: seq<State>, j: nat, p: nat)
    requires j < |run| && Init(run[0]) && forall k: nat :: k + 1 < |run| ==> SeesRightAt(run, p, k)
    ensures SeesRight(run[j], p)
  {
    if j > 0 {
      ClosedSeenOn(run, j - 1, p);
      assert SeesRightAt(run, p, j - 1);
    }
  }

  lemma ClosedSeen(run: seq<State>, j: nat, p: nat)
    requires IsRun(run) && j < |run| && p < |run[j].threads| && SawClosed(run[j].threads[p])
    ensures Get(run[j], run[j].threads[p].op.d).closed
  {
    forall k: nat | k + 1 < |run| ensures SeesRightAt(run, p, k) { ClosedSeenAt(run, p, k); }
    ClosedSeenOn(run, j, p);
  }

  // In state i, during the call thread p is in at j, nothing was available on
  // the side it waits on, which was closed unless the wait has a time limit.
  ghost predicate LookedInVain(run: seq<State>, i: nat, j: nat, p: nat)
    requires j < |run| && p < |run[j].threads| && Waiting(run[j].threads[p])
  {
    && i <= j && (forall k :: i <= k <= j ==> p < |run[k].threads| && run[k].threads[p].Call?)
    && var op := run[j].threads[p].op;
       Get(run[i], op.d).avail == 0 && (Get(run[i], op.d).closed || (op.Move? && op.timed))
  }

  // A wait answers false only so.
  lemma {:induction false} FalseMeansFinished(run: seq<State>, j: nat, p: nat)
    requires IsRun(run) && j < |run| && p < |run[j].threads| && Refused(run[j].threads[p])
    ensures exists i: nat :: LookedInVain(run, i, j, p)
  {
    assert j > 0;
    assert Next(run[j - 1], run[j]);
    ThreadCame(run[j - 1], run[j], p);
    if Refused(run[j - 1].threads[p]) {
      FalseMeansFinished(run, j - 1, p);
      var i: nat :| LookedInVain(run, i, j - 1, p);
      assert LookedInVain(run, i, j, p);
    } else {
      if SawClosed(run[j - 1].threads[p]) { ClosedSeen(run, j - 1, p); }
      assert LookedInVain(run, j - 1, j, p);
    }
  }
}
