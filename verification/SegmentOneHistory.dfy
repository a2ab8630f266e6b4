/** The segmented queue with one consumer is linearisable: every run has one
    sequential history of a first-in first-out queue, in which each push of an
    element, each pop and each empty answer takes effect at a moment inside its
    call.

    The order of the history is that of the pops, and then of the cells, for
    the elements still there in f, the last state of the run. An element enters
    with the first of those at or after it in that order whose push returns, or
    which is popped. So it may enter long after it is in its cell, and never
    after its push has returned. */
module SegmentOneHistory {
  import opened Positions
  import opened SegmentQueueOne

  // ------------------------------------------------- the sequential queue

  ghost function Unpopped(f: State): set<Pos> {
    set x | x in f.cells && x !in f.out
  }

  ghost function Order(f: State): seq<Pos> {
    f.out + Line(Unpopped(f))
  }

  // A push of x has returned, or x is popped.
  predicate Settled(s: State, x: Pos) {
    x in s.finished || x in s.out
  }

  // How much of the order has entered: up to the last element settled.
  function Reach(o: seq<Pos>, s: State): (n: nat)
    ensures n <= |o| && (n > 0 ==> Settled(s, o[n - 1])) && forall m :: n <= m < |o| ==> !Settled(s, o[m])
  {
    if o == [] || Settled(s, o[|o| - 1]) then |o| else Reach(o[..|o| - 1], s)
  }

  ghost predicate Within(o: seq<Pos>, s: State) {
    |s.out| <= Reach(o, s)
  }

  // The elements queued, oldest first.
  ghost function Queue(o: seq<Pos>, s: State): seq<Pos>
    requires Within(o, s)
  {
    o[|s.out|..Reach(o, s)]
  }

  // The state is one of the run that ends in f.
  ghost predicate Of(s: State, f: State) {
    s.out <= f.out && s.finished <= f.cells.Keys
  }

  lemma OfIsWithin(s: State, f: State)
    requires Of(s, f)
    ensures Within(Order(f), s)
  {
    var o := Order(f);
    if |s.out| > 0 {
      assert o[|s.out| - 1] == f.out[|s.out| - 1] == s.out[|s.out| - 1];
    }
  }

  lemma ReachGrows(o: seq<Pos>, s: State, s': State)
    requires Extends(s, s')
    ensures Reach(o, s) <= Reach(o, s')
  {
    if Reach(o, s) > 0 {
      assert Settled(s', o[Reach(o, s) - 1]);
    }
  }

  // Those that enter, and those that leave, in a step.
  ghost function Enters(o: seq<Pos>, s: State, s': State): seq<Pos> {
    if Reach(o, s) <= Reach(o, s') then o[Reach(o, s)..Reach(o, s')] else []
  }

  ghost function Leaves(s: State, s': State): seq<Pos>
    requires s.out <= s'.out
  {
    s'.out[|s.out|..]
  }

  lemma RunIsOf(run: seq<State>, k: nat)
    requires IsRun(run) && k < |run|
    ensures Of(run[k], run[|run| - 1])
  {
    RunExtends(run, k, |run| - 1);
    RunHolds(run, k);
  }

  // The step is some moves of a first-in first-out queue: those that enter join
  // the end, in order, and those that leave go from the front.
  ghost predicate Fifo(o: seq<Pos>, s: State, s': State) {
    && s.out <= s'.out && Reach(o, s) <= Reach(o, s') && Within(o, s) && Within(o, s')
    && Queue(o, s) + Enters(o, s, s') == Leaves(s, s') + Queue(o, s')
  }

  lemma ExtendsIsFifo(f: State, s: State, s': State)
    requires Of(s, f) && Of(s', f) && Extends(s, s')
    ensures Fifo(Order(f), s, s')
  {
    var o := Order(f);
    OfIsWithin(s, f);
    OfIsWithin(s', f);
    ReachGrows(o, s, s');
    Slices(o, |s.out|, Reach(o, s), |s'.out|, Reach(o, s'));
    assert o[|s.out|..|s'.out|] == Leaves(s, s');
  }

  ghost predicate FifoAt(o: seq<Pos>, run: seq<State>, k: nat)
    requires k + 1 < |run|
  {
    Fifo(o, run[k], run[k + 1])
  }

  /** Each step of a run is some moves of the sequential queue. */
  lemma StepIsFifo(run: seq<State>, k: nat)
    requires IsRun(run) && k + 1 < |run|
    ensures FifoAt(Order(run[|run| - 1]), run, k)
  {
    RunIsOf(run, k);
    RunIsOf(run, k + 1);
    RunExtends(run, k, k + 1);
    ExtendsIsFifo(run[|run| - 1], run[k], run[k + 1]);
  }

  lemma Slices(o: seq<Pos>, a: nat, n: nat, a': nat, n': nat)
    requires a <= n <= n' <= |o| && a <= a' <= n'
    ensures o[a..n] + o[n..n'] == o[a..a'] + o[a'..n']
  {}

  // --------------------------------------------------------- inside the call

  // What a push gains in a step was in no cell.
  ghost predicate Gains(s: State, s': State, p: nat) {
    forall x :: At(s', p) && x in s'.prods[p].mine ==> At(s, p) && (x in s.prods[p].mine || x !in s.cells)
  }

  lemma InSegments(s: State, x: Pos)
    requires CellsOk(s)
    ensures x in s.cells ==> x.seg < |s.segs|
  {
    if x in s.cells { assert CellOk(s, x); }
  }

  lemma LinkGains(s: State, s': State, p: nat)
    requires PushInv(s) && PushLink(s, s', p)
    ensures Gains(s, s', p)
  {
    forall x | At(s', p) && x in s'.prods[p].mine ensures x in s.prods[p].mine || x !in s.cells {
      var r :| 0 <= r < |s'.prods[p].mine| && s'.prods[p].mine[r] == x;
      InSegments(s, x);
      if r < |s.prods[p].mine| { assert x == s.prods[p].mine[r]; }
    }
  }

  lemma FillGains(s: State, s': State, p: nat)
    requires PushInv(s) && PushFill(s, s', p)
    ensures Gains(s, s', p)
  {
    assert ProducerOk(s, s.prods[p]);
  }

  lemma OwnGains(s: State, s': State, p: nat)
    requires PushInv(s) && PushStep(s, s', p)
    ensures Gains(s, s', p)
  {
    if PushLink(s, s', p) { LinkGains(s, s', p); }
    else if PushFill(s, s', p) { FillGains(s, s', p); }
  }

  lemma NextGains(s: State, s': State, p: nat)
    requires Inv(s) && Next(s, s')
    ensures Gains(s, s', p)
  {
    if PopStep(s, s') {
      PopStepKeeps(s, s');
    } else {
      var q: nat :| PushStep(s, s', q);
      if q == p { OwnGains(s, s', p); } else { OtherStep(s, s', q); }
    }
  }

  ghost predicate GainsAt(run: seq<State>, p: nat, k: nat)
    requires k + 1 < |run|
  {
    Extends(run[k], run[k + 1]) && Gains(run[k], run[k + 1], p)
  }

  lemma RunGains(run: seq<State>, p: nat, k: nat)
    requires IsRun(run) && k + 1 < |run|
    ensures GainsAt(run, p, k)
  {
    RunHolds(run, k);
    assert Next(run[k], run[k + 1]);
    StepExtends(run[k], run[k + 1]);
    NextGains(run[k], run[k + 1], p);
  }

  // A push fills its cells after it has begun.
  lemma {:induction false} FilledInPush(run: seq<State>, p: nat, b: nat, e: nat, x: Pos)
    requires SamePush(run, p, b, e) && x in run[e].prods[p].mine && forall k :: b <= k < e ==> GainsAt(run, p, k)
    ensures x !in run[b].cells
    decreases e
  {
    assert GainsAt(run, p, e - 1);
    if e - 1 > b && x in run[e - 1].cells {
      FilledInPush(run, p, b, e - 1, x);
    } else {
      FilledSince(run, p, b, e - 1, x);
    }
  }

  lemma {:induction false} FilledSince(run: seq<State>, p: nat, i: nat, j: nat, x: Pos)
    requires i <= j < |run| && forall k :: i <= k < j ==> GainsAt(run, p, k)
    ensures x in run[i].cells ==> x in run[j].cells
    decreases j
  {
    if i < j {
      FilledSince(run, p, i, j - 1, x);
      assert GainsAt(run, p, j - 1);
    }
  }

  lemma NotFilledYet(run: seq<State>, p: nat, b: nat, e: nat, x: Pos)
    requires IsRun(run) && SamePush(run, p, b, e) && x in run[e].prods[p].mine
    ensures x !in run[b].cells
  {
    forall k: nat | b <= k < e ensures GainsAt(run, p, k) { RunGains(run, p, k); }
    FilledInPush(run, p, b, e, x);
  }

  // What the order rests on: each cell is after those it must follow, and is
  // popped once, after them.
  ghost predicate Sound(s: State) {
    && (forall x, a :: x in s.cells && a in s.cells[x].after ==> Lt(a, x))
    && (forall x :: x in s.out ==> x in s.cells)
    && (forall i, j :: 0 <= i < j < |s.out| ==> s.out[i] != s.out[j])
    && (forall j, a :: 0 <= j < |s.out| && a in s.cells[s.out[j]].after ==> a in s.out[..j])
  }

  lemma InvSound(s: State)
    requires Inv(s)
    ensures Sound(s)
  {
    forall x | x in s.cells ensures forall a :: a in s.cells[x].after ==> Lt(a, x) { assert CellOk(s, x); }
  }

  lemma RunSound(run: seq<State>, n: nat)
    requires IsRun(run) && n < |run|
    ensures Sound(run[n])
  {
    RunHolds(run, n);
    InvSound(run[n]);
  }

  lemma OrderIsAll(f: State, x: Pos)
    requires x in f.cells
    ensures x in Order(f)
  {
    if x !in f.out {
      assert x in Elements(Line(Unpopped(f)));
    }
  }

  lemma PoppedFirst(f: State, j: nat)
    requires j < |Order(f)|
    ensures Order(f)[j] in f.out <==> j < |f.out|
  {
    if j < |f.out| {
      assert Order(f)[j] == f.out[j];
    } else {
      var line := Line(Unpopped(f));
      assert Order(f)[j] == line[j - |f.out|] && line[j - |f.out|] in Elements(line);
    }
  }

  // In the order, y of a push that returned before x's began is before x.
  lemma OrderedBefore(f: State, n: nat, m: nat)
    requires Sound(f) && n < |Order(f)| && m < |Order(f)|
    requires Order(f)[n] in f.cells && Order(f)[m] in f.cells[Order(f)[n]].after
    ensures m < n
  {
    var o := Order(f);
    var x, y := o[n], o[m];
    assert Lt(y, x);
    var line := Line(Unpopped(f));
    PoppedFirst(f, m);
    if n < |f.out| {
      assert o[n] == f.out[n];
      assert y in f.out[..n];
      var i :| 0 <= i < n && f.out[i] == y;
    } else if m >= |f.out| {
      assert o[n] == line[n - |f.out|] && o[m] == line[m - |f.out|];
    }
  }

  lemma PoppedIsPrefix(f: State, s: State, j: nat)
    requires Sound(f) && s.out <= f.out && j < |Order(f)| && Order(f)[j] in s.out
    ensures j < |s.out|
  {
    var x := Order(f)[j];
    var i :| 0 <= i < |s.out| && s.out[i] == x;
    assert f.out[i] == x;
    PoppedFirst(f, j);
  }

  // At the beginning of the push of x nothing from x on has been settled.
  lemma NotYet(run: seq<State>, p: nat, b: nat, e: nat, n: nat)
    requires IsRun(run) && p < |run[0].prods| && SamePush(run, p, b, e)
    requires n < |Order(run[|run| - 1])| && Order(run[|run| - 1])[n] in run[e].prods[p].mine
    ensures Reach(Order(run[|run| - 1]), run[b]) <= n
  {
    var f := run[|run| - 1];
    var x := Order(f)[n];
    NotFilledYet(run, p, b, e, x);
    MustFollow(run, p, b, e, x);
    RunSound(run, b);
    RunSound(run, |run| - 1);
    RunExtends(run, b, |run| - 1);
    NotYetIn(f, run[b], n);
  }

  // It must follow what was finished then.
  lemma MustFollow(run: seq<State>, p: nat, b: nat, e: nat, x: Pos)
    requires IsRun(run) && p < |run[0].prods| && SamePush(run, p, b, e) && x in run[e].prods[p].mine
    ensures x in run[|run| - 1].cells && run[b].finished <= run[|run| - 1].cells[x].after
  {
    BeganAfter(run, p, b, e);
    PushOrdered(run, p, e);
    RunExtends(run, e, |run| - 1);
    MustFollowIn(run[e], run[|run| - 1], p, x);
  }

  lemma PushOrdered(run: seq<State>, p: nat, e: nat)
    requires IsRun(run) && e < |run| && p < |run[0].prods|
    ensures p < |run[e].prods| && Ordered(run[e], run[e].prods[p])
  {
    PushHistory(run, p, e);
  }

  lemma MustFollowIn(s: State, f: State, p: nat, x: Pos)
    requires At(s, p) && Ordered(s, s.prods[p]) && Extends(s, f) && x in s.prods[p].mine
    ensures x in f.cells && s.prods[p].before <= f.cells[x].after
  {
    var t :| 0 <= t < |s.prods[p].mine| && s.prods[p].mine[t] == x;
  }

  lemma NotYetIn(f: State, s: State, n: nat)
    requires Sound(f) && Sound(s) && s.out <= f.out && n < |Order(f)| && Order(f)[n] !in s.cells
    requires Order(f)[n] in f.cells && s.finished <= f.cells[Order(f)[n]].after
    ensures Reach(Order(f), s) <= n
  {
    var o := Order(f);
    var m := Reach(o, s);
    if m > n {
      if o[m - 1] in s.finished { OrderedBefore(f, n, m - 1); } else { PoppedByThen(f, s, n, m - 1); }
    }
  }

  lemma PoppedByThen(f: State, s: State, n: nat, m: nat)
    requires Sound(f) && Sound(s) && s.out <= f.out && n <= m < |Order(f)| && Order(f)[m] in s.out
    ensures Order(f)[n] in s.cells
  {
    PoppedIsPrefix(f, s, m);
    assert Order(f)[n] == f.out[n] == s.out[n];
    assert s.out[n] in s.out;
  }

  ghost predicate EntersAt(o: seq<Pos>, run: seq<State>, n: nat, k: nat)
    requires k + 1 < |run|
  {
    Reach(o, run[k]) <= n < Reach(o, run[k + 1])
  }

  ghost predicate EnteredBy(o: seq<Pos>, run: seq<State>, n: nat, k: nat)
    requires k < |run|
  {
    n < Reach(o, run[k])
  }

  lemma {:induction false} EnterStep(o: seq<Pos>, run: seq<State>, n: nat, i: nat, j: nat) returns (k: nat)
    requires i <= j < |run| && !EnteredBy(o, run, n, i) && EnteredBy(o, run, n, j)
    ensures i <= k < j && EntersAt(o, run, n, k)
    decreases j
  {
    if EnteredBy(o, run, n, j - 1) { k := EnterStep(o, run, n, i, j - 1); } else { k := j - 1; }
  }

  lemma IsAmong(o: seq<Pos>, s: State, s': State, n: nat)
    requires Reach(o, s) <= n < Reach(o, s')
    ensures n < |o| && o[n] in Enters(o, s, s')
  {
    assert Enters(o, s, s')[n - Reach(o, s)] == o[n];
  }

  // x enters in one of the steps from i to j.
  ghost predicate EntersDuring(o: seq<Pos>, run: seq<State>, x: Pos, i: nat, j: nat)
    requires j < |run|
  {
    exists k :: i <= k < j && x in Enters(o, run[k], run[k + 1])
  }

  /** An element enters the queue inside its push: after the push has begun, at
      step b, and before any state j in which it has returned. */
  lemma PushPoint(run: seq<State>, p: nat, b: nat, e: nat, j: nat, x: Pos)
    requires IsRun(run) && p < |run[0].prods| && SamePush(run, p, b, e) && x in run[e].prods[p].mine
    requires e <= j < |run| && x in run[j].finished
    ensures EntersDuring(Order(run[|run| - 1]), run, x, b, j)
  {
    var n := PlaceInOrder(run, p, b, e, x);
    var o := Order(run[|run| - 1]);
    SettledEntered(o, run[j], n);
    PointOf(o, run, n, b, j);
  }

  lemma PointOf(o: seq<Pos>, run: seq<State>, n: nat, i: nat, j: nat)
    requires i <= j < |run| && n < |o| && !EnteredBy(o, run, n, i) && EnteredBy(o, run, n, j)
    ensures EntersDuring(o, run, o[n], i, j)
  {
    var k := EnterStep(o, run, n, i, j);
    IsAmong(o, run[k], run[k + 1], n);
  }

  lemma PlaceInOrder(run: seq<State>, p: nat, b: nat, e: nat, x: Pos) returns (n: nat)
    requires IsRun(run) && p < |run[0].prods| && SamePush(run, p, b, e) && x in run[e].prods[p].mine
    ensures var o := Order(run[|run| - 1]); n < |o| && o[n] == x && !EnteredBy(o, run, n, b)
  {
    MustFollow(run, p, b, e, x);
    OrderIsAll(run[|run| - 1], x);
    n :| n < |Order(run[|run| - 1])| && Order(run[|run| - 1])[n] == x;
    NotYet(run, p, b, e, n);
  }

  lemma SettledEntered(o: seq<Pos>, s: State, n: nat)
    requires n < |o| && Settled(s, o[n])
    ensures n < Reach(o, s)
  {}

  /** A pop that hands out an element: it leaves the queue at the pop's last
      step, alone. */
  lemma PopPoint(run: seq<State>, e: nat)
    requires IsRun(run) && e + 1 < |run| && (PopInOrder(run[e], run[e + 1]) || LookTake(run[e], run[e + 1]))
    ensures run[e].out <= run[e + 1].out && run[e + 1].cons.at.Away?
    ensures Leaves(run[e], run[e + 1]) ==
            [if run[e].cons.at.Look? then run[e].cons.holes[run[e].cons.at.k] else HeadPos(run[e])]
  {}

  // Nothing is popped until the pop ends.
  ghost predicate StillAt(run: seq<State>, k: nat)
    requires k + 1 < |run|
  {
    !run[k].cons.at.Away? && !run[k + 1].cons.at.Away? ==> run[k + 1].out == run[k].out
  }

  lemma NextStill(s: State, s': State)
    requires Next(s, s') && !s.cons.at.Away? && !s'.cons.at.Away?
    ensures s'.out == s.out
  {}

  lemma {:induction false} OutStays(run: seq<State>, b: nat, e: nat)
    requires SamePop(run, b, e) && forall k: nat :: k + 1 < |run| ==> StillAt(run, k)
    ensures run[e].out == run[b].out
    decreases e
  {
    if e > b + 1 {
      OutStays(run, b, e - 1);
      assert StillAt(run, e - 1);
    }
  }

  /** A pop that answers empty: the queue was empty at its beginning. */
  lemma EmptyPoint(run: seq<State>, b: nat, e: nat)
    requires IsRun(run) && SamePop(run, b, e) && e + 1 < |run| && AnswersEmpty(run[e], run[e + 1])
    ensures var o := Order(run[|run| - 1]); Within(o, run[b + 1]) && Queue(o, run[b + 1]) == []
  {
    var f := run[|run| - 1];
    EmptyAnswer(run, b, e);
    forall k: nat | k + 1 < |run| ensures StillAt(run, k) {
      assert Next(run[k], run[k + 1]);
      if !run[k].cons.at.Away? && !run[k + 1].cons.at.Away? { NextStill(run[k], run[k + 1]); }
    }
    OutStays(run, b, e);
    RunIsOf(run, b + 1);
    RunSound(run, |run| - 1);
    AllPopped(f, run[b + 1]);
  }

  lemma AllPopped(f: State, s: State)
    requires Sound(f) && Of(s, f) && forall x :: x in s.finished ==> x in s.out
    ensures Within(Order(f), s) && Queue(Order(f), s) == []
  {
    OfIsWithin(s, f);
    if Reach(Order(f), s) > 0 { PoppedIsPrefix(f, s, Reach(Order(f), s) - 1); }
  }

  // All that has entered by state n; what has left is the list of pops.
  ghost function Ins(o: seq<Pos>, s: State): seq<Pos> {
    o[..Reach(o, s)]
  }

  /** In every run, in every state: what has left, the elements popped, is what
      entered first, in that order, and the queue is the rest. */
  lemma History(run: seq<State>, n: nat)
    requires IsRun(run) && n < |run|
    ensures var o := Order(run[|run| - 1]);
            Within(o, run[n]) && Ins(o, run[n]) == run[n].out + Queue(o, run[n])
  {
    var o := Order(run[|run| - 1]);
    RunIsOf(run, n);
    OfIsWithin(run[n], run[|run| - 1]);
    assert o[..|run[n].out|] == run[n].out;
  }

  // ------------------------------------------------------ which pushes are over

  // The push of producer p, with x among its elements, returns in this step.
  ghost predicate Returns(s: State, s': State, p: nat, x: Pos) {
    p < |s.prods| == |s'.prods| && s.prods[p].Pushing? && s'.prods[p].Idle? && x in s.prods[p].mine
  }

  ghost predicate ReturnsAt(run: seq<State>, i: nat, p: nat, x: Pos) {
    i + 1 < |run| && Returns(run[i], run[i + 1], p, x)
  }

  ghost predicate ReturnedBy(run: seq<State>, n: nat, x: Pos) {
    exists i: nat, p: nat :: i < n && ReturnsAt(run, i, p, x)
  }

  ghost predicate Finishes(s: State, s': State) {
    forall x :: x in s'.finished <==> x in s.finished || exists p: nat :: Returns(s, s', p, x)
  }

  lemma PushFinishes(s: State, s': State, p: nat)
    requires PushStep(s, s', p)
    ensures Finishes(s, s')
  {
    OtherStep(s, s', p);
    if PushEnd(s, s', p) {
      assert forall x :: x in s.prods[p].mine <==> Returns(s, s', p, x);
    } else {
      assert s'.finished == s.finished && s'.prods[p].Pushing?;
    }
  }

  lemma PopFinishesNone(s: State, s': State)
    requires PopStep(s, s')
    ensures s'.prods == s.prods && s'.finished == s.finished
  {}

  lemma NextFinishes(s: State, s': State)
    requires Next(s, s')
    ensures Finishes(s, s')
  {
    if PopStep(s, s') {
      PopFinishesNone(s, s');
    } else {
      var p: nat :| PushStep(s, s', p);
      PushFinishes(s, s', p);
    }
  }

  ghost predicate FinishesAt(run: seq<State>, k: nat)
    requires k + 1 < |run|
  {
    Finishes(run[k], run[k + 1])
  }

  lemma RunFinishes(run: seq<State>, k: nat)
    requires IsRun(run) && k + 1 < |run|
    ensures FinishesAt(run, k)
  {
    assert Next(run[k], run[k + 1]);
    NextFinishes(run[k], run[k + 1]);
  }

  lemma {:induction false} FinishedOn(run: seq<State>, n: nat, x: Pos)
    requires n < |run| && run[0].finished == {} && forall k: nat :: k + 1 < |run| ==> FinishesAt(run, k)
    ensures x in run[n].finished <==> ReturnedBy(run, n, x)
  {
    if n > 0 {
      FinishedOn(run, n - 1, x);
      assert FinishesAt(run, n - 1);
      var s, s' := run[n - 1], run[n];
      if p: nat :| Returns(s, s', p, x) { assert ReturnsAt(run, n - 1, p, x); }
    }
  }

  /** The elements called finished are those of the pushes that have returned. */
  lemma FinishedExactly(run: seq<State>, n: nat, x: Pos)
    requires IsRun(run) && n < |run|
    ensures x in run[n].finished <==> ReturnedBy(run, n, x)
  {
    forall k: nat | k + 1 < |run| ensures FinishesAt(run, k) { RunFinishes(run, k); }
    FinishedOn(run, n, x);
  }
}
