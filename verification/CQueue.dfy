/** The lifted C queue (shim/c_queue.cpp): the caller's own ring that batches
    move to and from, how producers that terminate finish the queue, and when
    destroy may free it. The shared ring is the sequential queue BoundedRing
    shows it to be, one step an operation; waiting is Eventcount's. */
module CQueue {
  import opened Basics

  // ------------------------------------------------------- the caller's ring

  // The elements of a ring, oldest first.
  function Between<T>(data: seq<T>, first: nat, next: nat): seq<T>
    requires first < |data| && next < |data|
  {
    if first <= next then data[first..next] else data[first..] + data[..next]
  }

  function After(i: nat, slots: nat): nat
    requires i < slots
  {
    if i + 1 < slots then i + 1 else 0
  }

  lemma AfterIs(i: nat, slots: nat)
    requires i < slots
    ensures (i + 1) % slots == After(i, slots)
  {}

  lemma CountIs(first: nat, next: nat, slots: nat)
    requires first < slots && next < slots
    ensures (next + slots - first) % slots == if first <= next then next - first else next + slots - first
  {}

  lemma Inserted<T>(data: seq<T>, first: nat, next: nat, v: T)
    requires first < |data| && next < |data| && |Between(data, first, next)| < |data| - 1
    ensures Between(data[next := v], first, After(next, |data|)) == Between(data, first, next) + [v]
  {
    var data' := data[next := v];
    if first <= next {
      assert data'[first..next + 1] == data[first..next] + [v];
    } else {
      assert data'[..next + 1] == data[..next] + [v];
      assert data'[first..] == data[first..];
    }
  }

  lemma Removed<T>(data: seq<T>, first: nat, next: nat)
    requires first < |data| && next < |data| && Between(data, first, next) != []
    ensures [data[first]] + Between(data, After(first, |data|), next) == Between(data, first, next)
  {
    if first > next { assert data[first..] == [data[first]] + data[first + 1..]; }
  }

  class OwnRing<T> {
    const data: array<T>
    var first: nat   // *out
    var next: nat    // *in

    ghost predicate Valid()
      reads this
    {
      first < data.Length && next < data.Length
    }

    function Contents(): seq<T>
      requires Valid()
      reads this, data
    {
      Between(data[..], first, next)
    }

    constructor (data: array<T>, first: nat, next: nat)
      requires first < data.Length && next < data.Length
      ensures Valid() && this.data == data && this.first == first && this.next == next
    {
      this.data, this.first, this.next := data, first, next;
    }

    method Count() returns (n: nat)
      requires Valid()
      ensures n == |Contents()| < data.Length
    {
      n := (next + data.Length - first) % data.Length;
      CountIs(first, next, data.Length);
    }

    method Room() returns (n: nat)
      requires Valid()
      ensures n == data.Length - 1 - |Contents()|
    {
      var count := Count();
      n := data.Length - 1 - count;
    }

    method Insert(v: T)
      requires Valid() && |Contents()| < data.Length - 1
      modifies this`next, data
      ensures Valid() && Contents() == old(Contents()) + [v]
    {
      Inserted(data[..], first, next, v);
      AfterIs(next, data.Length);
      data[next] := v;
      assert data[..] == old(data[..])[next := v];
      next := (next + 1) % data.Length;
    }

    method Remove() returns (v: T)
      requires Valid() && Contents() != []
      modifies this`first
      ensures Valid() && [v] + Contents() == old(Contents())
    {
      Removed(data[..], first, next);
      AfterIs(first, data.Length);
      v := data[first];
      first := (first + 1) % data.Length;
    }

    // A push batch of n: the oldest n leave the ring, in order.
    method MoveOut(n: nat) returns (moved: seq<T>)
      requires Valid() && n <= |Contents()|
      modifies this`first
      ensures Valid() && |moved| == n && moved + Contents() == old(Contents())
    {
      moved := [];
      while |moved| < n
        invariant Valid() && |moved| <= n && moved + Contents() == old(Contents())
      {
        var v := Remove();
        assert moved + ([v] + Contents()) == (moved + [v]) + Contents();
        moved := moved + [v];
      }
    }

    // A pop batch: the elements join the ring, in order.
    method MoveIn(elems: seq<T>)
      requires Valid() && |Contents()| + |elems| < data.Length
      modifies this`next, data
      ensures Valid() && Contents() == old(Contents()) + elems
    {
      for i := 0 to |elems|
        invariant Valid() && Contents() == old(Contents()) + elems[..i]
      {
        Insert(elems[i]);
      }
    }
  }

  // One push batch, at the step of the shared ring it takes effect at: as many
  // as there are, as the limit allows and as there is room for, with nothing
  // lost, repeated or reordered.
  method PushBatch<T>(src: OwnRing<T>, queue: seq<T>, capacity: nat, limit: nat) returns (k: nat, queue': seq<T>)
    requires src.Valid() && |queue| <= capacity
    modifies src`first
    ensures src.Valid() && k == Min(Min(|old(src.Contents())|, limit), capacity - |queue|)
    ensures queue' + src.Contents() == queue + old(src.Contents()) && |queue'| == |queue| + k <= capacity
  {
    var count := src.Count();
    k := Min(Min(count, limit), capacity - |queue|);
    ghost var was := src.Contents();
    var moved := src.MoveOut(k);
    assert moved + src.Contents() == was;
    queue' := queue + moved;
    assert queue + moved + src.Contents() == queue + (moved + src.Contents());
  }

  // One pop batch: as many as there are, as the limit allows and as the
  // caller's ring has room for.
  method PopBatch<T>(dst: OwnRing<T>, queue: seq<T>, limit: nat) returns (k: nat, queue': seq<T>)
    requires dst.Valid()
    modifies dst`next, dst.data
    ensures dst.Valid() && k == Min(Min(dst.data.Length - 1 - |old(dst.Contents())|, limit), |queue|)
    ensures dst.Contents() + queue' == old(dst.Contents()) + queue && |queue'| == |queue| - k
  {
    var room := dst.Room();
    k := Min(Min(room, limit), |queue|);
    dst.MoveIn(queue[..k]);
    queue' := queue[k..];
    assert queue == queue[..k] + queue[k..];
  }

  // ------------------------------------------------- finishing and destroying

  type Elem(!new)

  // How the queue finishes: never; when exactly `producers` have terminated,
  // one more ending the program; when at least that many have.
  datatype Mode = Never | Exactly | AtLeast

  datatype Stage =
    | Idle
    | Pushing(items: seq<Elem>) | Pushed(k: nat)       // counted; has put in the first k
    | Popping(n: nat) | Looking(n: nat, c: bool)       // counted; has read closed
    | Popped(got: seq<Elem>) | Told                    // has taken these; was told finished
    | Terminating | Closing | Terminated  // counted; the last one, about to close; done
    | ReadingPushing | ReadingPopping     // destroy

  /** leaving: destroy has been called. History: pushed, popped; enough, the
      elements pushed when the last awaited producer terminated. */
  datatype State = State(capacity: nat, producers: int, ends: Mode, queue: seq<Elem>, closed: bool, ended: nat,
                         pushing: nat, popping: nat, leaving: bool, freed: bool, aborted: bool, threads: seq<Stage>,
                         pushed: seq<Elem>, popped: seq<Elem>, enough: nat)

  ghost predicate Init(s: State) {
    && s.queue == [] && s.pushed == [] && s.popped == [] && s.ended == 0 && s.pushing == 0 && s.popping == 0
    && s.enough == 0 && !s.leaving && !s.freed && !s.aborted
    && (s.ends.Exactly? ==> s.producers >= 0)
    && s.closed == (!s.ends.Never? && s.producers <= 0)
    && forall t :: 0 <= t < |s.threads| ==> s.threads[t] == Idle
  }

  function Goes(s: State, t: nat, at: Stage): State
    requires t < |s.threads|
  {
    s.(threads := s.threads[t := at])
  }

  // An operation counts itself before anything else, in pushing (a push or a
  // terminate) or popping; none begins once destroy has been called.
  ghost predicate Begin(s: State, s': State, t: nat, at: Stage) {
    && t < |s.threads| && s.threads[t].Idle? && !s.leaving && !s.aborted
    && (|| ((at.Pushing? || at.Terminating?) && s' == Goes(s.(pushing := s.pushing + 1), t, at))
        || (at.Popping? && s' == Goes(s.(popping := s.popping + 1), t, at)))
  }

  // A push, of one element or of a batch, at the step it takes effect: once
  // there is room, as many as there is room for. A batch of none waits for room
  // too.
  ghost predicate PushTakes(s: State, s': State, t: nat) {
    && t < |s.threads| && s.threads[t].Pushing? && |s.queue| < s.capacity && !s.aborted
    && var items := s.threads[t].items;
       var k := Min(|items|, s.capacity - |s.queue|);
       s' == Goes(s.(queue := s.queue + items[..k], pushed := s.pushed + items[..k]), t, Pushed(k))
  }

  ghost predicate ReadClosed(s: State, s': State, t: nat) {
    t < |s.threads| && s.threads[t].Popping? && !s.aborted && s' == Goes(s, t, Looking(s.threads[t].n, s.closed))
  }

  // A pop of up to n finds elements, and takes as many as there are; or none,
  // and has been told or tries again.
  ghost predicate Look(s: State, s': State, t: nat) {
    && t < |s.threads| && s.threads[t].Looking? && !s.aborted
    && var n := s.threads[t].n;
       var k := Min(n, |s.queue|);
       if s.queue != [] then s' == Goes(s.(queue := s.queue[k..], popped := s.popped + s.queue[..k]), t,
         Popped(s.queue[..k]))
       else s' == Goes(s, t, if s.threads[t].c then Told else Popping(n))
  }

  ghost predicate CountIn(s: State, s': State, t: nat) {
    && t < |s.threads| && s.threads[t].Terminating? && !s.aborted
    && var n := s.ended + 1;
       if s.ends.Never? then s' == s.(aborted := true)
       else if n > s.producers then
         s' == if s.ends.Exactly? then s.(ended := n, aborted := true) else Goes(s.(ended := n), t, Terminated)
       else if n == s.producers then s' == Goes(s.(ended := n, enough := |s.pushed|), t, Closing)
       else s' == Goes(s.(ended := n), t, Terminated)
  }

  ghost predicate Close(s: State, s': State, t: nat) {
    t < |s.threads| && s.threads[t].Closing? && !s.aborted && s' == Goes(s.(closed := true), t, Terminated)
  }

  // The wake-ups are done, and the operation counts itself out.
  ghost predicate Leave(s: State, s': State, t: nat) {
    && t < |s.threads| && !s.aborted
    && (|| ((s.threads[t].Pushed? || s.threads[t].Terminated?) && s.pushing > 0
            && s' == Goes(s.(pushing := s.pushing - 1), t, Idle))
        || ((s.threads[t].Popped? || s.threads[t].Told?) && s.popping > 0
            && s' == Goes(s.(popping := s.popping - 1), t, Idle)))
  }

  // Its effect is visible: an element it pushed can be popped, one it popped is
  // gone, what it was told is told, its terminate is counted.
  predicate Visible(at: Stage) {
    at.Idle? || at.Pushed? || at.Popped? || at.Told? || at.Terminated?
  }

  // destroy is called by a thread that has seen the effect of every operation.
  ghost predicate BeginDestroy(s: State, s': State, t: nat) {
    && t < |s.threads| && s.threads[t].Idle? && !s.leaving && !s.aborted
    && (forall u :: 0 <= u < |s.threads| ==> Visible(s.threads[u]))
    && s' == Goes(s.(leaving := true), t, ReadingPushing)
  }

  ghost predicate Wait(s: State, s': State, t: nat) {
    && t < |s.threads| && !s.aborted
    && match s.threads[t]
       case ReadingPushing => s' == Goes(s, t, if s.pushing == 0 then ReadingPopping else ReadingPushing)
       case ReadingPopping => s' == if s.popping == 0 then Goes(s.(freed := true), t, Idle)
         else Goes(s, t, ReadingPushing)
       case _ => false
  }

  ghost predicate Step(s: State, s': State, t: nat) {
    || (exists at :: Begin(s, s', t, at)) || PushTakes(s, s', t) || ReadClosed(s, s', t) || Look(s, s', t)
    || CountIn(s, s', t) || Close(s, s', t) || Leave(s, s', t) || BeginDestroy(s, s', t) || Wait(s, s', t)
  }

  ghost predicate Next(s: State, s': State) {
    exists t: nat :: Step(s, s', t)
  }

  ghost predicate IsRun(run: seq<State>) {
    && |run| > 0 && Init(run[0])
    && forall i :: 0 <= i < |run| - 1 ==> Next(run[i], run[i + 1])
  }

  // --------------------------------------------------------------- counting

  datatype Kind = InPush | InPop | AboutToClose | InDestroy

  predicate Counts(k: Kind, at: Stage) {
    match k
    case InPush => at.Pushing? || at.Pushed? || at.Terminating? || at.Closing? || at.Terminated?
    case InPop => at.Popping? || at.Looking? || at.Popped? || at.Told?
    case AboutToClose => at.Closing?
    case InDestroy => at.ReadingPushing? || at.ReadingPopping?
  }

  function Total(ts: seq<Stage>, k: Kind): nat {
    if ts == [] then 0 else Total(ts[..|ts| - 1], k) + if Counts(k, ts[|ts| - 1]) then 1 else 0
  }

  lemma {:induction false} TotalUpdate(ts: seq<Stage>, t: nat, at: Stage, k: Kind)
    requires t < |ts|
    ensures Total(ts[t := at], k) ==
            Total(ts, k) - (if Counts(k, ts[t]) then 1 else 0) + (if Counts(k, at) then 1 else 0)
    ensures Counts(k, ts[t]) ==> Total(ts, k) >= 1
  {
    var n := |ts| - 1;
    if t == n {
      assert ts[t := at][..n] == ts[..n];
    } else {
      assert ts[t := at][..n] == ts[..n][t := at];
      TotalUpdate(ts[..n], t, at, k);
    }
  }

  lemma {:induction false} NoneCounts(ts: seq<Stage>, k: Kind)
    requires forall t :: 0 <= t < |ts| ==> !Counts(k, ts[t])
    ensures Total(ts, k) == 0
  {
    if ts != [] { NoneCounts(ts[..|ts| - 1], k); }
  }

  lemma TotalZero(ts: seq<Stage>, k: Kind)
    requires Total(ts, k) == 0
    ensures forall t :: 0 <= t < |ts| ==> !Counts(k, ts[t])
  {
    forall t | 0 <= t < |ts| ensures !Counts(k, ts[t]) {
      TotalUpdate(ts, t, ts[t], k);
    }
  }

  // ------------------------------------------------------------- invariant

  ghost predicate Inv(s: State) {
    && s.pushing == Total(s.threads, InPush) && s.popping == Total(s.threads, InPop)
    && s.pushed == s.popped + s.queue && |s.queue| <= s.capacity
    && Total(s.threads, AboutToClose) == (if 0 < s.producers <= s.ended && !s.closed && !s.ends.Never? then 1 else 0)
    && (s.closed ==> s.ended >= s.producers) && s.enough <= |s.pushed|
    && (!s.ends.Never? && s.producers <= 0 ==> s.closed) && (s.ends.Never? ==> s.ended == 0 && !s.closed)
    && (s.freed ==> s.leaving) && Total(s.threads, InDestroy) == (if s.leaving && !s.freed then 1 else 0)
    && forall t :: 0 <= t < |s.threads| ==>
         && (s.threads[t].Looking? && s.threads[t].c ==> s.closed) && (s.threads[t].Told? ==> s.closed)
         && (s.leaving ==> Visible(s.threads[t]) || Counts(InDestroy, s.threads[t]))
         && (s.threads[t].ReadingPopping? || s.freed ==> s.pushing == 0)
         && (s.freed ==> s.popping == 0)
  }

  lemma InitHolds(s: State)
    requires Init(s)
    ensures Inv(s)
  {
    NoneCounts(s.threads, InPush);
    NoneCounts(s.threads, InPop);
    NoneCounts(s.threads, AboutToClose);
    NoneCounts(s.threads, InDestroy);
  }

  lemma Totals(ts: seq<Stage>, t: nat, at: Stage)
    requires t < |ts|
    ensures forall k ::
              Total(ts[t := at], k) ==
              Total(ts, k) - (if Counts(k, ts[t]) then 1 else 0) + (if Counts(k, at) then 1 else 0)
    ensures forall k :: Counts(k, ts[t]) ==> Total(ts, k) >= 1
  {
    forall k
      ensures Total(ts[t := at], k) ==
              Total(ts, k) - (if Counts(k, ts[t]) then 1 else 0) + (if Counts(k, at) then 1 else 0)
      ensures Counts(k, ts[t]) ==> Total(ts, k) >= 1
    {
      TotalUpdate(ts, t, at, k);
    }
  }

  lemma BeginKeeps(s: State, s': State, t: nat, at: Stage)
    requires Inv(s) && Begin(s, s', t, at)
    ensures Inv(s')
  {
    TotalZero(s.threads, InDestroy);
    Totals(s.threads, t, s'.threads[t]);
  }

  lemma PushTakesKeeps(s: State, s': State, t: nat)
    requires Inv(s) && PushTakes(s, s', t)
    ensures Inv(s')
  {
    Totals(s.threads, t, s'.threads[t]);
  }

  lemma ReadClosedKeeps(s: State, s': State, t: nat)
    requires Inv(s) && ReadClosed(s, s', t)
    ensures Inv(s')
  {
    Totals(s.threads, t, s'.threads[t]);
  }

  lemma LookKeeps(s: State, s': State, t: nat)
    requires Inv(s) && Look(s, s', t)
    ensures Inv(s')
  {
    assert forall k: nat :: k <= |s.queue| ==> s.queue == s.queue[..k] + s.queue[k..];
    Totals(s.threads, t, s'.threads[t]);
  }

  lemma CountInKeeps(s: State, s': State, t: nat)
    requires Inv(s) && CountIn(s, s', t)
    ensures Inv(s')
  {
    Totals(s.threads, t, s'.threads[t]);
  }

  lemma CloseKeeps(s: State, s': State, t: nat)
    requires Inv(s) && Close(s, s', t)
    ensures Inv(s')
  {
    Totals(s.threads, t, s'.threads[t]);
  }

  lemma LeaveKeeps(s: State, s': State, t: nat)
    requires Inv(s) && Leave(s, s', t)
    ensures Inv(s')
  {
    Totals(s.threads, t, s'.threads[t]);
  }

  lemma BeginDestroyKeeps(s: State, s': State, t: nat)
    requires Inv(s) && BeginDestroy(s, s', t)
    ensures Inv(s')
  {
    Totals(s.threads, t, s'.threads[t]);
  }

  lemma WaitKeeps(s: State, s': State, t: nat)
    requires Inv(s) && Wait(s, s', t)
    ensures Inv(s')
  {
    Totals(s.threads, t, s'.threads[t]);
  }

  lemma StepKeeps(s: State, s': State, t: nat)
    requires Inv(s) && Step(s, s', t)
    ensures Inv(s')
  {
    if {
      case exists at :: Begin(s, s', t, at) =>
        var at :| Begin(s, s', t, at);
        BeginKeeps(s, s', t, at);
      case PushTakes(s, s', t) => PushTakesKeeps(s, s', t);
      case ReadClosed(s, s', t) => ReadClosedKeeps(s, s', t);
      case Look(s, s', t) => LookKeeps(s, s', t);
      case CountIn(s, s', t) => CountInKeeps(s, s', t);
      case Close(s, s', t) => CloseKeeps(s, s', t);
      case Leave(s, s', t) => LeaveKeeps(s, s', t);
      case BeginDestroy(s, s', t) => BeginDestroyKeeps(s, s', t);
      case Wait(s, s', t) => WaitKeeps(s, s', t);
    }
  }

  lemma {:induction false} RunHolds(run: seq<State>, i: nat)
    requires IsRun(run) && i < |run|
    ensures Inv(run[i])
  {
    if i == 0 {
      InitHolds(run[0]);
    } else {
      RunHolds(run, i - 1);
      assert Next(run[i - 1], run[i]);
      var t: nat :| Step(run[i - 1], run[i], t);
      StepKeeps(run[i - 1], run[i], t);
    }
  }

  // ------------------------------------------------------------- main results

  // A pop told that the queue is finished: the awaited producers have all
  // terminated, and everything pushed so far, so everything pushed before the
  // last of them did, has been delivered, once and in order.
  lemma ToldMeansDelivered(run: seq<State>, i: nat, t: nat)
    requires IsRun(run) && i + 1 < |run| && Look(run[i], run[i + 1], t) && run[i + 1].threads[t].Told?
    ensures run[i].closed && run[i].ended >= run[i].producers
    ensures run[i].popped == run[i].pushed && |run[i].popped| >= run[i].enough
  {
    RunHolds(run, i);
  }

  // Exactly one terminate closes the queue, and not before the last awaited.
  lemma OneCloses(run: seq<State>, i: nat)
    requires IsRun(run) && i < |run| && run[i].producers > 0 && !run[i].ends.Never?
    ensures run[i].ended < run[i].producers ==> !run[i].closed && Total(run[i].threads, AboutToClose) == 0
    ensures run[i].ended >= run[i].producers && !run[i].closed ==> Total(run[i].threads, AboutToClose) == 1
    ensures run[i].closed ==> Total(run[i].threads, AboutToClose) == 0
  {
    RunHolds(run, i);
  }

  // Once the queue is freed no thread is in an operation on it: not waking
  // sleepers after its effect was seen, nor waiting in destroy.
  lemma FreedUnderNobody(run: seq<State>, i: nat)
    requires IsRun(run) && i < |run| && run[i].freed
    ensures forall t :: 0 <= t < |run[i].threads| ==> run[i].threads[t].Idle?
  {
    RunHolds(run, i);
    TotalZero(run[i].threads, InPush);
    TotalZero(run[i].threads, InPop);
    TotalZero(run[i].threads, InDestroy);
    assert |run[i].threads| > 0 ==> run[i].pushing == 0 && run[i].popping == 0;
  }
}
