/** What the waits of module Eventcount answer, and what their steps do to the
    queue: a wait that answers true has taken, once and inside its call, what
    there was up to what it asked for; a close closes. */
module WaitAnswers {
  import opened Basics
  import opened Eventcount
  import opened EventcountKept
  import opened Wakeups

  // --------------------------------------------------------------- true

  // A wait for something that has found it.
  predicate Served(t: Thread) {
    && t.Call? && ((t.op.Move? && t.op.n > 0) || t.op.Peek?)
    && (t.at == Done(true) || t.at.Notify? || t.at.Bump? || t.at.Wake? || (t.at.Cancel? && t.at.next.Then?))
  }

  // The notify it has still to do, if any, is of w on side d.
  predicate Owed(t: Thread, d: Side, w: nat) {
    t.Call? &&
    match t.at
    case Cancel(Then(e, v)) => e == d && v == w
    case Notify(e, v) => e == d && v == w
    case Bump(e, v) => e == d && v == w
    case Wake(e, v) => e == d && v <= w
    case _ => true
  }

  // Thread p finds something on its side. A move takes all that is there, up to
  // what it asks for, which is then on the other side of a queue with a bound,
  // and owes the other side a notify of as many; a batch of none takes nothing
  // and passes one on.
  ghost predicate Takes(s: State, s': State, p: nat) {
    && p < |s.threads| == |s'.threads| && Waiting(s.threads[p]) && Served(s'.threads[p])
    && s'.threads[p].op == s.threads[p].op
    && (s.threads[p].at.Look1? || s.threads[p].at.Look2?)
    && var op := s.threads[p].op;
       var o := Other(op.d);
       var here, there := Get(s, op.d).avail, Get(s, o).avail;
       && here > 0
       && if op.Peek? then
            Get(s', op.d).avail == here && Get(s', o).avail == there && Owed(s'.threads[p], op.d, 1)
          else
            var k := if op.n < here then op.n else here;
            && Get(s', op.d).avail == here - k && Owed(s'.threads[p], o, k)
            && Get(s', o).avail == there + if s.cap < 0 then 0 else k
  }

  // Where a thread that has been served comes from.
  ghost predicate CameServed(s: State, s': State, p: nat)
    requires p < |s.threads| && p < |s'.threads|
  {
    Served(s'.threads[p]) ==>
      || Takes(s, s', p)
      || (&& Served(s.threads[p]) && s.threads[p].op == s'.threads[p].op
          && forall d, w :: Owed(s.threads[p], d, w) ==> Owed(s'.threads[p], d, w))
  }

  lemma LookServed(s: State, s': State, p: nat)
    requires LookFinds(s, s', p)
    ensures p < |s.threads| == |s'.threads| && CameServed(s, s', p)
  {}

  lemma WaitServed(s: State, s': State, p: nat)
    requires WaitStep(s, s', p) && StageOk(s.threads[p])
    ensures p < |s.threads| == |s'.threads| && CameServed(s, s', p)
  {
    if LookFinds(s, s', p) { LookServed(s, s', p); }
  }

  lemma NotifyServed(s: State, s': State, p: nat)
    requires NotifyStep(s, s', p)
    ensures p < |s.threads| == |s'.threads| && CameServed(s, s', p)
  {}

  lemma BeginServed(s: State, s': State, p: nat, op: Op)
    requires Begin(s, s', p, op)
    ensures p < |s.threads| == |s'.threads| && !Served(s'.threads[p])
  {}

  lemma WakeServed(s: State, s': State, p: nat, q: nat, r: nat)
    requires WakeOne(s, s', p, q) || WakeClosed(s, s', p, q)
    ensures |s'.threads| == |s.threads| && (r < |s.threads| ==> CameServed(s, s', r))
  {}

  lemma OtherSame(s: State, s': State, q: nat, r: nat)
    requires WaitStep(s, s', q) || NotifyStep(s, s', q) || exists op :: Begin(s, s', q, op)
    requires r != q
    ensures |s'.threads| == |s.threads| && (r < |s.threads| ==> s'.threads[r] == s.threads[r])
  {
    if WaitStep(s, s', q) { WaitCame(s, s', q); }
  }

  lemma StepServed(s: State, s': State, q: nat, p: nat)
    requires Step(s, s', q) && forall r :: 0 <= r < |s.threads| ==> StageOk(s.threads[r])
    ensures |s'.threads| == |s.threads| && (p < |s.threads| ==> CameServed(s, s', p))
  {
    if r: nat :| WakeOne(s, s', q, r) || WakeClosed(s, s', q, r) {
      WakeServed(s, s', q, r, p);
    } else if q != p {
      OtherSame(s, s', q, p);
    } else if WaitStep(s, s', p) {
      WaitServed(s, s', p);
    } else if NotifyStep(s, s', p) {
      NotifyServed(s, s', p);
    } else {
      var op :| Begin(s, s', p, op);
      BeginServed(s, s', p, op);
    }
  }

  ghost predicate CameServedAt(run: seq<State>, p: nat, k: nat)
    requires k + 1 < |run|
  {
    |run[k + 1].threads| == |run[k].threads| && (p < |run[k].threads| ==> CameServed(run[k], run[k + 1], p))
  }

  lemma RunServed(run: seq<State>, p: nat, k: nat)
    requires IsRun(run) && k + 1 < |run|
    ensures CameServedAt(run, p, k)
  {
    RunHolds(run, k);
    StagesOk(run[k]);
    assert Next(run[k], run[k + 1]);
    var q: nat :| Step(run[k], run[k + 1], q);
    StepServed(run[k], run[k + 1], q, p);
  }

  lemma StagesOk(s: State)
    requires Inv(s)
    ensures forall r :: 0 <= r < |s.threads| ==> StageOk(s.threads[r])
  {
    forall r | 0 <= r < |s.threads| ensures StageOk(s.threads[r]) {
      assert ThreadOk(s.elements, Elements, s.threads, s.threads[r]);
    }
  }

  // In step i, inside the call thread p is in at j, it took, and what it owes at
  // j is a notify of that.
  ghost predicate TookAt(run: seq<State>, i: nat, j: nat, p: nat)
    requires j < |run| && p < |run[j].threads| && Served(run[j].threads[p])
  {
    && i < j && Takes(run[i], run[i + 1], p)
    && (forall k :: i <= k <= j ==>
          p < |run[k].threads| && run[k].threads[p].Call? && run[k].threads[p].op == run[j].threads[p].op)
    && var op := run[j].threads[p].op;
       if op.Peek? then Owed(run[j].threads[p], op.d, 1)
       else Owed(run[j].threads[p], Other(op.d), Min(op.n, Get(run[i], op.d).avail))
  }

  lemma {:induction false} ServedTook(run: seq<State>, j: nat, p: nat)
    requires |run| > 0 && Init(run[0]) && forall k: nat :: k + 1 < |run| ==> CameServedAt(run, p, k)
    requires j < |run| && p < |run[j].threads| && Served(run[j].threads[p])
    ensures exists i: nat :: TookAt(run, i, j, p)
  {
    if j > 0 {
      assert CameServedAt(run, p, j - 1);
      if Takes(run[j - 1], run[j], p) {
        assert TookAt(run, j - 1, j, p);
      } else {
        ServedTook(run, j - 1, p);
        var i: nat :| TookAt(run, i, j - 1, p);
        assert TookAt(run, i, j, p);
      }
    }
  }

  /** In every run: a wait for something that is about to answer true, or has
      found what it waited for, had a step inside its call at which something
      was available on its side. A move took all of it, up to what it asked for;
      it moved to the other side; and what is still to be notified is that. */
  lemma TrueMeansTook(run: seq<State>, j: nat, p: nat)
    requires IsRun(run) && j < |run| && p < |run[j].threads| && Served(run[j].threads[p])
    ensures exists i: nat :: TookAt(run, i, j, p)
  {
    forall k: nat | k + 1 < |run| ensures CameServedAt(run, p, k) { RunServed(run, p, k); }
    ServedTook(run, j, p);
  }

  // -------------------------------------------------- what changes the queue

  ghost predicate SameAvail(s: State, s': State) {
    s'.elements.avail == s.elements.avail && s'.room.avail == s.room.avail
  }

  predicate Begins(s: State, s': State, p: nat) {
    p < |s.threads| == |s'.threads| && s.threads[p].Idle? && s'.threads[p].Call?
  }

  // Thread p begins an operation that does not wait: a push to a queue without a
  // bound, of k, adds k elements; an overrun fills one place, if there is one.
  ghost predicate Adds(s: State, s': State, p: nat) {
    && Begins(s, s', p)
    && match s'.threads[p].op
       case Add(k) => s'.elements.avail == s.elements.avail + k && s'.room.avail == s.room.avail
       case Overrun =>
         if s.room.avail == 0 then SameAvail(s, s')
         else s'.elements.avail == s.elements.avail + 1 && s'.room.avail == s.room.avail - 1
       case _ => SameAvail(s, s')
  }

  ghost predicate QueueStep(s: State, s': State) {
    && (SameAvail(s, s') || (exists p: nat :: Takes(s, s', p)) || (exists p: nat :: Adds(s, s', p)))
    && forall p: nat :: Begins(s, s', p) ==> Adds(s, s', p)
  }

  lemma WaitAvail(s: State, s': State, p: nat)
    requires WaitStep(s, s', p) && StageOk(s.threads[p])
    ensures SameAvail(s, s') || Takes(s, s', p)
  {
    if LookFinds(s, s', p) { LookTakes(s, s', p); }
  }

  lemma LookTakes(s: State, s': State, p: nat)
    requires LookFinds(s, s', p) && StageOk(s.threads[p])
    ensures Takes(s, s', p)
  {}

  lemma NotifyAvail(s: State, s': State, p: nat)
    requires NotifyStep(s, s', p)
    ensures SameAvail(s, s')
  {}

  /** In every run, at every step: what is available changes only as a wait takes
      it, or as an operation that does not wait begins; and each that begins
      adds what it should. */
  lemma QueueMoves(run: seq<State>, k: nat)
    requires IsRun(run) && k + 1 < |run|
    ensures QueueStep(run[k], run[k + 1])
  {
    RunHolds(run, k);
    StagesOk(run[k]);
    assert Next(run[k], run[k + 1]);
    var q: nat :| Step(run[k], run[k + 1], q);
    StepAvail(run[k], run[k + 1], q);
  }

  lemma StepAvail(s: State, s': State, q: nat)
    requires Step(s, s', q) && forall r :: 0 <= r < |s.threads| ==> StageOk(s.threads[r])
    ensures SameAvail(s, s') || Takes(s, s', q) || Adds(s, s', q)
    ensures forall p: nat :: Begins(s, s', p) ==> Adds(s, s', p)
  {
    if r: nat :| WakeOne(s, s', q, r) || WakeClosed(s, s', q, r) {
    } else if WaitStep(s, s', q) {
      WaitAvail(s, s', q);
      WaitCame(s, s', q);
    } else if NotifyStep(s, s', q) {
      NotifyAvail(s, s', q);
    } else {
      var op :| Begin(s, s', q, op);
      BeginAdds(s, s', q, op);
    }
  }

  lemma BeginAdds(s: State, s': State, p: nat, op: Op)
    requires Begin(s, s', p, op)
    ensures Adds(s, s', p) && forall r: nat :: r != p && r < |s.threads| ==> s'.threads[r] == s.threads[r]
  {}

  // -------------------------------------------------------------- closing

  // A close of side d past its store.
  predicate HasClosed(t: Thread, d: Side) {
    t.Call? && t.op == Close(d) && !t.at.CloseStore?
  }

  predicate ClosesNext(t: Thread, d: Side) {
    t.Call? && t.op == Close(d) && t.at.CloseStore?
  }

  // A step closes d exactly if a close of it stores.
  ghost predicate Closes(s: State, s': State, d: Side) {
    && |s'.threads| == |s.threads|
    && (Get(s', d).closed <==>
        || Get(s, d).closed
        || exists p :: 0 <= p < |s.threads| && ClosesNext(s.threads[p], d) && HasClosed(s'.threads[p], d))
    && forall p :: 0 <= p < |s.threads| && HasClosed(s'.threads[p], d) ==>
         HasClosed(s.threads[p], d) || ClosesNext(s.threads[p], d)
  }

  lemma StoreCloses(s: State, s': State, p: nat, d: Side)
    requires StoreClosed(s, s', p)
    ensures Closes(s, s', d)
  {
    if s.threads[p].op.d == d { assert ClosesNext(s.threads[p], d) && HasClosed(s'.threads[p], d); }
  }

  // Any other step closes nothing.
  ghost predicate ClosesNothing(s: State, s': State, d: Side) {
    && |s'.threads| == |s.threads| && Get(s', d).closed == Get(s, d).closed
    && forall p :: 0 <= p < |s.threads| && HasClosed(s'.threads[p], d) ==> HasClosed(s.threads[p], d)
  }

  lemma WaitClosesNothing(s: State, s': State, p: nat, d: Side)
    requires WaitStep(s, s', p)
    ensures ClosesNothing(s, s', d)
  {
    WaitCame(s, s', p);
  }

  lemma NotifyClosesNothing(s: State, s': State, p: nat, d: Side)
    requires NotifyStep(s, s', p) && !StoreClosed(s, s', p) && StageOk(s.threads[p])
    ensures ClosesNothing(s, s', d)
  {}

  lemma RestClosesNothing(s: State, s': State, p: nat, d: Side)
    requires (exists op :: Begin(s, s', p, op)) || exists q: nat :: WakeOne(s, s', p, q) || WakeClosed(s, s', p, q)
    ensures ClosesNothing(s, s', d)
  {}

  lemma StepCloses(s: State, s': State, q: nat, d: Side)
    requires Step(s, s', q) && forall r :: 0 <= r < |s.threads| ==> StageOk(s.threads[r])
    ensures Closes(s, s', d)
  {
    if StoreClosed(s, s', q) { StoreCloses(s, s', q, d); }
    else if WaitStep(s, s', q) { WaitClosesNothing(s, s', q, d); }
    else if NotifyStep(s, s', q) { NotifyClosesNothing(s, s', q, d); }
    else { RestClosesNothing(s, s', q, d); }
  }

  ghost predicate ClosesAt(run: seq<State>, d: Side, k: nat)
    requires k + 1 < |run|
  {
    Closes(run[k], run[k + 1], d)
  }

  lemma RunCloses(run: seq<State>, d: Side, k: nat)
    requires IsRun(run) && k + 1 < |run|
    ensures ClosesAt(run, d, k)
  {
    RunHolds(run, k);
    StagesOk(run[k]);
    assert Next(run[k], run[k + 1]);
    var q: nat :| Step(run[k], run[k + 1], q);
    StepCloses(run[k], run[k + 1], q, d);
  }

  // Some close of d is past its store in a state up to j.
  ghost predicate WasClosed(run: seq<State>, d: Side, j: nat)
    requires j < |run|
  {
    exists i: nat, p: nat :: i <= j && p < |run[i].threads| && HasClosed(run[i].threads[p], d)
  }

  lemma {:induction false} ClosedOn(run: seq<State>, d: Side, j: nat)
    requires j < |run| && Init(run[0]) && forall k: nat :: k + 1 < |run| ==> ClosesAt(run, d, k)
    ensures Get(run[j], d).closed <==> WasClosed(run, d, j)
    ensures forall p :: 0 <= p < |run[j].threads| && HasClosed(run[j].threads[p], d) ==> Get(run[j], d).closed
  {
    if j > 0 {
      ClosedOn(run, d, j - 1);
      assert ClosesAt(run, d, j - 1);
      if WasClosed(run, d, j - 1) {
        var i: nat, p: nat :| i <= j - 1 && p < |run[i].threads| && HasClosed(run[i].threads[p], d);
        assert WasClosed(run, d, j);
      }
    }
  }

  /** In every run: a side is closed exactly from the store of the first close of
      it on, so in every state once a close has returned, or is waking. */
  lemma ClosedExactly(run: seq<State>, d: Side, j: nat)
    requires IsRun(run) && j < |run|
    ensures Get(run[j], d).closed <==> WasClosed(run, d, j)
  {
    forall k: nat | k + 1 < |run| ensures ClosesAt(run, d, k) { RunCloses(run, d, k); }
    ClosedOn(run, d, j);
  }

  // --------------------------------------------------------------- looking

  // What a wait's own step does at each of its looks. It reads closed as it is;
  // a look that finds nothing after it had read closed answers false; it goes to
  // sleep exactly if the epoch is the one it has.
  ghost predicate LooksRight(s: State, s': State, p: nat) {
    && p < |s.threads| == |s'.threads| && s.threads[p].Call? && s'.threads[p].Call?
    && (s.threads[p].op.Move? || s.threads[p].op.Peek?)
    && var t, side := s.threads[p].at, Get(s, s.threads[p].op.d);
       var t' := s'.threads[p].at;
       && (t.Closed1? ==> t' == Look1(side.closed))
       && (t.Closed2? ==> t' == Look2(t.key, side.closed))
       && (t.Look1? && side.avail == 0 && t.c ==> t' == Done(false))
       && (t.Look2? && side.avail == 0 && t.c ==> t' == Cancel(Finished))
       && (t.Look2? && side.avail == 0 && !t.c ==> t' == Check(t.key))
       && (t == Cancel(Finished) ==> t' == Done(false))
       && (t.Check? ==> (t'.Futex? <==> side.epoch == t.key))
       && (t.Futex? ==> (t'.Asleep? <==> side.epoch == t.key))
  }

  /** From a close on, a wait that finds nothing answers false: its next read of
      closed sees it, and then its next look that finds nothing ends it. */
  lemma WaitLooksRight(s: State, s': State, p: nat)
    requires WaitStep(s, s', p)
    ensures LooksRight(s, s', p)
  {
    WaitCame(s, s', p);
  }
}
