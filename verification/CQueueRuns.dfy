/** What callers see of the lifted C queue, over whole runs of module CQueue: the
    elements they were told went in, those they were handed, how many producers
    have terminated. None of it is read off the queue's own history. */
module CQueueRuns {
  import opened Basics
  import opened CQueue

  // ------------------------------------------------------- what callers see

  // A push by thread t takes effect; its caller is told how many went in.
  ghost predicate Puts(s: State, s': State, t: nat) {
    t < |s.threads| == |s'.threads| && s.threads[t].Pushing? && s'.threads[t].Pushed?
  }

  // A pop by thread t hands its caller elements.
  ghost predicate Gives(s: State, s': State, t: nat) {
    t < |s.threads| == |s'.threads| && s.threads[t].Looking? && s'.threads[t].Popped?
  }

  // A terminate by thread t is counted.
  ghost predicate Ends(s: State, s': State, t: nat) {
    && t < |s.threads| == |s'.threads| && s.threads[t].Terminating?
    && (s'.threads[t].Closing? || s'.threads[t].Terminated?)
  }

  ghost predicate OneEnds(s: State, s': State) {
    exists t: nat :: Ends(s, s', t)
  }

  ghost function PutIn(s: State, s': State): seq<Elem> {
    if t: nat :| Puts(s, s', t) && s'.threads[t].k <= |s.threads[t].items| then s.threads[t].items[..s'.threads[t].k]
    else []
  }

  ghost function HandedOut(s: State, s': State): seq<Elem> {
    if t: nat :| Gives(s, s', t) then s'.threads[t].got else []
  }

  // All that has gone in by state n, and all that has been handed out, in order.
  ghost function Ins(run: seq<State>, n: nat): seq<Elem>
    requires n < |run|
  {
    if n == 0 then [] else Ins(run, n - 1) + PutIn(run[n - 1], run[n])
  }

  ghost function Outs(run: seq<State>, n: nat): seq<Elem>
    requires n < |run|
  {
    if n == 0 then [] else Outs(run, n - 1) + HandedOut(run[n - 1], run[n])
  }

  // How many terminates have been counted by state n.
  ghost function Ended(run: seq<State>, n: nat): nat
    requires n < |run|
  {
    if n == 0 then 0 else Ended(run, n - 1) + if OneEnds(run[n - 1], run[n]) then 1 else 0
  }

  // ------------------------------------------------------------ first in, first out

  // Only thread t moves.
  ghost predicate Alone(s: State, s': State, t: nat) {
    t < |s.threads| == |s'.threads| && forall u :: 0 <= u < |s.threads| && u != t ==> s'.threads[u] == s.threads[u]
  }

  lemma QueueStepAlone(s: State, s': State, t: nat)
    requires PushTakes(s, s', t) || ReadClosed(s, s', t) || Look(s, s', t) || CountIn(s, s', t)
    ensures Alone(s, s', t)
  {}

  lemma StepAlone(s: State, s': State, t: nat)
    requires Step(s, s', t)
    ensures Alone(s, s', t)
  {
    if PushTakes(s, s', t) || ReadClosed(s, s', t) || Look(s, s', t) || CountIn(s, s', t) { QueueStepAlone(s, s', t); }
  }

  lemma PutsFifo(s: State, s': State, t: nat)
    requires |s.queue| <= s.capacity && PushTakes(s, s', t)
    ensures s.queue + PutIn(s, s') == HandedOut(s, s') + s'.queue
  {
    StepAlone(s, s', t);
    assert Puts(s, s', t) && forall u: nat :: Puts(s, s', u) ==> u == t;
    assert forall u: nat :: !Gives(s, s', u);
  }

  lemma LookFifo(s: State, s': State, t: nat)
    requires Look(s, s', t)
    ensures s.queue + PutIn(s, s') == HandedOut(s, s') + s'.queue
  {
    StepAlone(s, s', t);
    assert forall u: nat :: !Puts(s, s', u);
    assert forall k: nat :: k <= |s.queue| ==> s.queue == s.queue[..k] + s.queue[k..];
    if s.queue == [] {
      assert forall u: nat :: !Gives(s, s', u);
    } else {
      assert Gives(s, s', t) && forall u: nat :: Gives(s, s', u) ==> u == t;
    }
  }

  lemma RestFifo(s: State, s': State, t: nat)
    requires Step(s, s', t) && !PushTakes(s, s', t) && !Look(s, s', t)
    ensures s.queue + PutIn(s, s') == HandedOut(s, s') + s'.queue
  {
    StepAlone(s, s', t);
    assert s'.queue == s.queue;
    assert forall u: nat :: !Puts(s, s', u);
    assert forall u: nat :: !Gives(s, s', u);
  }

  ghost predicate FifoAt(run: seq<State>, k: nat)
    requires k + 1 < |run|
  {
    run[k].queue + PutIn(run[k], run[k + 1]) == HandedOut(run[k], run[k + 1]) + run[k + 1].queue
  }

  lemma RunFifo(run: seq<State>, k: nat)
    requires IsRun(run) && k + 1 < |run|
    ensures FifoAt(run, k)
  {
    RunHolds(run, k);
    assert Next(run[k], run[k + 1]);
    var t: nat :| Step(run[k], run[k + 1], t);
    if PushTakes(run[k], run[k + 1], t) { PutsFifo(run[k], run[k + 1], t); }
    else if Look(run[k], run[k + 1], t) { LookFifo(run[k], run[k + 1], t); }
    else { RestFifo(run[k], run[k + 1], t); }
  }

  lemma {:induction false} FifoOn(run: seq<State>, n: nat)
    requires n < |run| && run[0].queue == [] && forall k: nat :: k + 1 < |run| ==> FifoAt(run, k)
    ensures Ins(run, n) == Outs(run, n) + run[n].queue
  {
    if n > 0 {
      FifoOn(run, n - 1);
      assert FifoAt(run, n - 1);
      StillPrefix(Ins(run, n - 1), Outs(run, n - 1), run[n - 1].queue, PutIn(run[n - 1], run[n]),
                  HandedOut(run[n - 1], run[n]), run[n].queue);
    }
  }

  /** In every run, in every state: what callers have been handed is what went in
      first, in that order, and the queue is the rest. */
  lemma HandedInOrder(run: seq<State>, n: nat)
    requires IsRun(run) && n < |run|
    ensures Ins(run, n) == Outs(run, n) + run[n].queue
  {
    forall k: nat | k + 1 < |run| ensures FifoAt(run, k) { RunFifo(run, k); }
    FifoOn(run, n);
  }

  /** How many: a push puts in as many as it has and there is room for, and none
      goes in while there is no room; a pop hands out as many as it asks for and
      there are. */
  lemma HowMany(run: seq<State>, k: nat, t: nat)
    requires IsRun(run) && k + 1 < |run|
    ensures Puts(run[k], run[k + 1], t) ==>
              var items, put := run[k].threads[t].items, run[k + 1].threads[t].k;
              var room := run[k].capacity - |run[k].queue|;
              && room > 0 && put <= |items| && put <= room && (put == |items| || put == room)
              && PutIn(run[k], run[k + 1]) == items[..put]
    ensures Gives(run[k], run[k + 1], t) ==>
              var n, got := run[k].threads[t].n, run[k + 1].threads[t].got;
              && run[k].queue != [] && |got| <= n && |got| <= |run[k].queue| && (|got| == n || |got| == |run[k].queue|)
              && HandedOut(run[k], run[k + 1]) == got
  {
    RunHolds(run, k);
    assert Next(run[k], run[k + 1]);
    var u: nat :| Step(run[k], run[k + 1], u);
    StepAlone(run[k], run[k + 1], u);
    if u == t { OwnAmount(run[k], run[k + 1], t); }
  }

  lemma OwnAmount(s: State, s': State, t: nat)
    requires |s.queue| <= s.capacity && Step(s, s', t)
    ensures Puts(s, s', t) ==>
              var items, room, put := s.threads[t].items, s.capacity - |s.queue|, s'.threads[t].k;
              && room > 0 && put <= |items| && put <= room && (put == |items| || put == room)
              && PutIn(s, s') == items[..put]
    ensures Gives(s, s', t) ==>
              var n, got := s.threads[t].n, s'.threads[t].got;
              && s.queue != [] && |got| <= n && |got| <= |s.queue| && (|got| == n || |got| == |s.queue|)
              && HandedOut(s, s') == got
  {
    StepAlone(s, s', t);
    if Puts(s, s', t) {
      assert PushTakes(s, s', t);
      assert forall u: nat :: Puts(s, s', u) ==> u == t;
    }
    if Gives(s, s', t) {
      assert Look(s, s', t);
      assert forall u: nat :: Gives(s, s', u) ==> u == t;
    }
  }

  // -------------------------------------------------------------- terminating

  // What a step does to the count of terminates: each counted adds one; one that
  // must not be ends the program, and nothing else does.
  ghost predicate Counted(s: State, s': State) {
    && (!s'.aborted ==> s'.ended == s.ended + if OneEnds(s, s') then 1 else 0)
    && s'.producers == s.producers && s'.ends == s.ends
    && (s'.aborted && !s.aborted ==>
        s.ends.Never? || (s.ends.Exactly? && s.ended >= s.producers && !OneEnds(s, s')))
    && (s.aborted ==> s'.aborted)
  }

  lemma CountInCounted(s: State, s': State, t: nat)
    requires CountIn(s, s', t)
    ensures Counted(s, s')
  {
    StepAlone(s, s', t);
    assert !s'.aborted ==> Ends(s, s', t);
  }

  lemma SameCount(s: State, s': State, t: nat)
    requires Step(s, s', t) && !CountIn(s, s', t)
    ensures s'.aborted == s.aborted && s'.ended == s.ended && s'.producers == s.producers && s'.ends == s.ends
  {}

  lemma NoneEnds(s: State, s': State, t: nat)
    requires Step(s, s', t) && !CountIn(s, s', t)
    ensures !Ends(s, s', t)
  {}

  lemma RestCounted(s: State, s': State, t: nat)
    requires Step(s, s', t) && !CountIn(s, s', t)
    ensures Counted(s, s')
  {
    SameCount(s, s', t);
    NoneEnds(s, s', t);
    StepAlone(s, s', t);
    assert forall u: nat :: !Ends(s, s', u);
  }

  ghost predicate CountedAt(run: seq<State>, k: nat)
    requires k + 1 < |run|
  {
    Counted(run[k], run[k + 1])
  }

  lemma RunCounted(run: seq<State>, k: nat)
    requires IsRun(run) && k + 1 < |run|
    ensures CountedAt(run, k)
  {
    assert Next(run[k], run[k + 1]);
    var t: nat :| Step(run[k], run[k + 1], t);
    if CountIn(run[k], run[k + 1], t) {
      CountInCounted(run[k], run[k + 1], t);
    } else {
      RestCounted(run[k], run[k + 1], t);
    }
  }

  ghost predicate EndedRight(run: seq<State>, n: nat)
    requires n < |run|
  {
    var s := run[n];
    && s.producers == run[0].producers && s.ends == run[0].ends
    && (!s.aborted ==> s.ended == Ended(run, n))
    && (s.aborted ==> s.ends.Never? || (s.ends.Exactly? && Ended(run, n) >= s.producers))
  }

  lemma {:induction false} EndedOn(run: seq<State>, n: nat)
    requires n < |run| && Init(run[0]) && forall k: nat :: k + 1 < |run| ==> CountedAt(run, k)
    ensures EndedRight(run, n)
  {
    if n > 0 {
      EndedOn(run, n - 1);
      assert CountedAt(run, n - 1);
    }
  }

  /** The count is the number of terminates. The program is ended only by a
      terminate of a queue built without a number of producers, or by one more
      than exactly that number; never of a queue that ends at the least. */
  lemma EndedExactly(run: seq<State>, n: nat)
    requires IsRun(run) && n < |run|
    ensures EndedRight(run, n)
  {
    forall k: nat | k + 1 < |run| ensures CountedAt(run, k) { RunCounted(run, k); }
    EndedOn(run, n);
  }

  /** What a terminate does, at its step: end the program, close the queue next
      if it is the last awaited, or nothing more. */
  lemma TerminateDoes(run: seq<State>, k: nat, t: nat)
    requires IsRun(run) && k + 1 < |run| && CountIn(run[k], run[k + 1], t)
    ensures var s, s' := run[k], run[k + 1];
            var n := Ended(run, k) + 1;
            if s.ends.Never? || (s.ends.Exactly? && n > s.producers) then s'.aborted
            else !s'.aborted && s'.threads[t] == if n == s.producers then Closing else Terminated
  {
    EndedExactly(run, k);
  }

  // ---------------------------------------------------------------- finished

  /** A pop is told the queue is finished exactly if it finds nothing after a look
      at a closed queue: it looked again after it had read that the queue was
      closed. Then all awaited producers have terminated, and everything that
      went in has been handed out. */
  lemma ToldExactly(run: seq<State>, k: nat, t: nat)
    requires IsRun(run) && k + 1 < |run| && Look(run[k], run[k + 1], t)
    ensures run[k + 1].threads[t].Told? <==> run[k].queue == [] && run[k].threads[t].c
    ensures run[k + 1].threads[t].Told? ==>
              && run[k].closed && Ended(run, k) >= run[k].producers && Ins(run, k) == Outs(run, k)
  {
    EndedExactly(run, k);
    HandedInOrder(run, k);
    RunHolds(run, k);
  }

  // It reads closed as it is.
  lemma ReadsClosed(run: seq<State>, k: nat, t: nat)
    requires IsRun(run) && k + 1 < |run| && t < |run[k].threads| == |run[k + 1].threads|
    requires run[k].threads[t].Popping? && run[k + 1].threads[t].Looking?
    ensures run[k + 1].threads[t] == Looking(run[k].threads[t].n, run[k].closed)
  {
    assert Next(run[k], run[k + 1]);
    var u: nat :| Step(run[k], run[k + 1], u);
    StepAlone(run[k], run[k + 1], u);
  }

  // -------------------------------------------------------------- destroying

  /** Once no operation is under way, two steps of its own at most end a destroy:
      it frees the queue. */
  lemma DestroyEnds(run: seq<State>, n: nat, t: nat) returns (s1: State, s2: State)
    requires IsRun(run) && n < |run| && t < |run[n].threads| && !run[n].aborted
    requires run[n].threads[t].ReadingPushing? || run[n].threads[t].ReadingPopping?
    requires run[n].pushing == 0 && run[n].popping == 0
    ensures s1 == run[n] || Wait(run[n], s1, t)
    ensures Wait(s1, s2, t) && s2 == run[n].(freed := true, threads := run[n].threads[t := Idle])
  {
    var s := run[n];
    s1 := if s.threads[t].ReadingPushing? then Goes(s, t, ReadingPopping) else s;
    s2 := Goes(s.(freed := true), t, Idle);
  }
}
