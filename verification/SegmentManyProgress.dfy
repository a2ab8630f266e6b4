/** Operations of the segmented queue with many consumers come to an end: in
    every state each has a step, and each of its steps returns or lowers a rank,
    but for a pop that waits for the push that has taken its cell. What others
    do meanwhile may raise it. */
module SegmentManyProgress {
  import opened Basics
  import opened Positions
  import opened SegmentQueueMany

  // Compared from the first on.
  datatype Rank = Rank(a: nat, b: nat, c: nat, d: nat, e: nat)

  predicate Less(x: Rank, y: Rank) {
    || x.a < y.a
    || (x.a == y.a && x.b < y.b)
    || (x.a == y.a && x.b == y.b && x.c < y.c)
    || (x.a == y.a && x.b == y.b && x.c == y.c && x.d < y.d)
    || (x.a == y.a && x.b == y.b && x.c == y.c && x.d == y.d && x.e < y.e)
  }

  function Left(a: nat, b: nat): nat {
    if a < b then b - a else 0
  }

  function If(b: bool): nat {
    if b then 1 else 0
  }

  // -------------------------------------------------------------------- pops

  // What is left of the list and of the head segment, whether it holds a cell or
  // has an old head, and the steps to the end of its round.
  function PopRank(s: State, at: Place): Rank {
    var far := Left(s.head, |s.segs|);
    var near := if s.head < |s.segs| then Left(s.segs[s.head].deq, SEGMENT) else 0;
    match at
    case Away => Rank(0, 0, 0, 0, 0)
    case ReadHead => Rank(far, near, 0, 9, 0)
    case ReadDeq(h) => Rank(far, near, If(h < s.head), 8, 0)
    case ReadEnq(h, _) => Rank(far, near, If(h < s.head), 7, 0)
    case CheckNext(h) => Rank(far, near, If(h < s.head), 6, 0)
    case Claim(h) => Rank(far, near, If(h < s.head), 5, 0)
    case Past(h) => Rank(far, near, If(h < s.head), 4, 0)
    case AdvanceTail(h) => Rank(far, near, If(h < s.head), 3, 0)
    case AdvanceHead(h) => Rank(far, near, If(h < s.head), 2, 0)
    case ReadState(_, _) => Rank(far, near, 1, 4, 0)
    case LookEnq(_, _) => Rank(far, near, 1, 3, 0)
    case Wait(_, _) => Rank(far, near, 1, 2, 0)
    case Skip(_, _) => Rank(far, near, 1, 2, 0)
    case Take(_, _) => Rank(far, near, 1, 1, 0)
  }

  ghost predicate PopEnds(s: State, s': State, q: nat) {
    && q < |s.cons| == |s'.cons|
    && (s'.cons[q].at.Away? || Less(PopRank(s', s'.cons[q].at), PopRank(s, s.cons[q].at)))
  }

  // It waits: the cell it has is still empty.
  ghost predicate PopWaits(s: State, s': State, q: nat) {
    && q < |s.cons| && s.cons[q].at.Wait? && s' == s
    && Pos(s.cons[q].at.h, s.cons[q].at.i) !in s.cells
  }

  lemma ReadEnds(s: State, s': State, q: nat)
    requires PopProtect(s, s', q) || PopReadDeq(s, s', q) || PopReadEnq(s, s', q) || PopCheckNext(s, s', q)
    ensures PopEnds(s, s', q)
  {
    assert s'.segs == s.segs && s'.head == s.head;
    GoesDown(s, s', q);
  }

  lemma AdvanceEnds(s: State, s': State, q: nat)
    requires Inv(s) && (PopPast(s, s', q) || PopAdvanceTail(s, s', q) || PopAdvanceHead(s, s', q))
    ensures PopEnds(s, s', q)
  {
    assert PlaceOk(s, q, s.cons[q]);
  }

  lemma ClaimEnds(s: State, s': State, q: nat)
    requires Inv(s) && PopClaim(s, s', q)
    ensures PopEnds(s, s', q)
  {
    assert PlaceOk(s, q, s.cons[q]);
  }

  // A step that leaves the counters, for a place of lower rank.
  lemma GoesDown(s: State, s': State, q: nat)
    requires q < |s.cons| == |s'.cons| && s'.segs == s.segs && s'.head == s.head
    requires s'.cons[q].at.Away? || Less(PopRank(s, s'.cons[q].at), PopRank(s, s.cons[q].at))
    ensures PopEnds(s, s', q)
  {}

  lemma StateEnds(s: State, s': State, q: nat)
    requires PopReadState(s, s', q) || PopLookEnq(s, s', q)
    ensures PopEnds(s, s', q)
  {
    GoesDown(s, s', q);
  }

  lemma SkipEnds(s: State, s': State, q: nat)
    requires PopSkip(s, s', q)
    ensures PopEnds(s, s', q)
  {
    GoesDown(s, s', q);
  }

  lemma CellEnds(s: State, s': State, q: nat)
    requires PopReadState(s, s', q) || PopLookEnq(s, s', q) || PopSkip(s, s', q) || PopTake(s, s', q)
    ensures PopEnds(s, s', q)
  {
    if PopSkip(s, s', q) { SkipEnds(s, s', q); } else if !PopTake(s, s', q) { StateEnds(s, s', q); }
  }

  lemma WaitEnds(s: State, s': State, q: nat)
    requires PopWait(s, s', q)
    ensures PopEnds(s, s', q) || PopWaits(s, s', q)
  {
    if Pos(s.cons[q].at.h, s.cons[q].at.i) in s.cells { GoesDown(s, s', q); }
  }

  lemma OwnPopEnds(s: State, s': State, q: nat)
    requires Inv(s) && q < |s.cons| && !s.cons[q].at.Away? && PopStep(s, s', q)
    ensures PopEnds(s, s', q) || PopWaits(s, s', q)
  {
    if PopClaim(s, s', q) { ClaimEnds(s, s', q); }
    else if PopWait(s, s', q) { WaitEnds(s, s', q); }
    else if PopCellStep(s, s', q) { CellEnds(s, s', q); }
    else if PopPast(s, s', q) || PopAdvanceTail(s, s', q) || PopAdvanceHead(s, s', q) { AdvanceEnds(s, s', q); }
    else { ReadEnds(s, s', q); }
  }

  lemma SegmentSteps(s: State, q: nat) returns (s': State)
    requires Inv(s) && q < |s.cons| && !s.cons[q].at.Away? && !s.cons[q].at.Claim? && !s.cons[q].at.Holds()
    ensures PopStep(s, s', q)
  {
    assert PlaceOk(s, q, s.cons[q]);
    var next, head, tail := s.cons[q].at, s.head, s.tail;
    match s.cons[q].at {
      case ReadHead => next := ReadDeq(s.head);
      case ReadDeq(h) => next := ReadEnq(h, s.segs[h].deq);
      case ReadEnq(h, d) => next := if d >= s.segs[h].enq then CheckNext(h) else Claim(h);
      case CheckNext(h) => next := if h + 1 < |s.segs| then Claim(h) else Away;
      case Past(h) => next := if h + 1 < |s.segs| then AdvanceTail(h) else Away;
      case AdvanceTail(h) => next, tail := AdvanceHead(h), if s.tail == h then h + 1 else s.tail;
      case AdvanceHead(h) => next, head := ReadHead, if s.head == h then h + 1 else s.head;
    }
    s' := s.(cons := s.cons[q := s.cons[q].(at := next)], head := head, tail := tail);
    assert PopSegmentStep(s, s', q);
  }

  lemma ClaimSteps(s: State, q: nat) returns (s': State)
    requires Inv(s) && q < |s.cons| && s.cons[q].at.Claim?
    ensures PopStep(s, s', q)
  {
    assert PlaceOk(s, q, s.cons[q]);
    var h := s.cons[q].at.h;
    var i := s.segs[h].deq;
    var x := Pos(h, i);
    s' := s.(segs := s.segs[h := s.segs[h].(deq := i + 1)],
             cons := s.cons[q := s.cons[q].(at := if i < SEGMENT then ReadState(h, i) else Past(h))]);
    if i < SEGMENT { s' := s'.(claims := s.claims + [x], holder := s.holder[x := q]); }
    assert PopClaim(s, s', q);
  }

  lemma CellSteps(s: State, q: nat) returns (s': State)
    requires Inv(s) && q < |s.cons| && s.cons[q].at.Holds()
    ensures PopStep(s, s', q)
  {
    assert PlaceOk(s, q, s.cons[q]);
    var h, i := s.cons[q].at.h, s.cons[q].at.i;
    var x := Pos(h, i);
    var t := s.(holder := Released(s, x));
    match s.cons[q].at
    case ReadState(_, _) =>
      s' := t.(cons := s.cons[q := s.cons[q].(at := FromState(s, h, i, LookEnq(h, i)))]);
      assert PopReadState(s, s', q);
    case LookEnq(_, _) =>
      s' := s.(cons := s.cons[q := s.cons[q].(at := if i < s.segs[h].enq then Wait(h, i) else Skip(h, i))]);
      assert PopLookEnq(s, s', q);
    case Wait(_, _) =>
      s' := t.(cons := s.cons[q := s.cons[q].(at := FromState(s, h, i, Wait(h, i)))]);
      assert PopWait(s, s', q);
    case Skip(_, _) =>
      if x in s.cells {
        s' := t.(cons := s.cons[q := s.cons[q].(at := FromState(s, h, i, ReadHead))]);
      } else {
        s' := s.(cells := s.cells[x := Skipped], holder := s.holder - {x},
                 cons := s.cons[q := s.cons[q].(at := ReadHead)]);
      }
      assert PopSkip(s, s', q);
    case Take(_, _) =>
      s' := s.(out := s.out + {x}, holder := s.holder - {x}, cons := s.cons[q := s.cons[q].(at := Away)]);
      assert PopTake(s, s', q);
  }

  lemma PopHasStep(s: State, q: nat) returns (s': State)
    requires Inv(s) && q < |s.cons| && !s.cons[q].at.Away?
    ensures PopStep(s, s', q)
  {
    if s.cons[q].at.Claim? { s' := ClaimSteps(s, q); }
    else if s.cons[q].at.Holds() { s' := CellSteps(s, q); }
    else { s' := SegmentSteps(s, q); }
  }

  /** In every state of every run: a pop under way has a step, and each step of its
      own returns or lowers its rank, unless it waits for a cell that a push has
      taken and is on its way to fill or give up. */
  lemma PopGoesOn(run: seq<State>, n: nat, q: nat)
    requires IsRun(run) && n < |run| && q < |run[n].cons| && !run[n].cons[q].at.Away?
    ensures exists s' :: PopStep(run[n], s', q)
    ensures forall s' :: PopStep(run[n], s', q) ==> PopEnds(run[n], s', q) || PopWaits(run[n], s', q)
    ensures PopWaits(run[n], run[n], q) ==>
              exists p ::
                && 0 <= p < |run[n].prods|
                && Owes(run[n].prods[p], Pos(run[n].cons[q].at.h, run[n].cons[q].at.i))
  {
    RunHolds(run, n);
    var s' := PopHasStep(run[n], q);
    forall s' | PopStep(run[n], s', q) ensures PopEnds(run[n], s', q) || PopWaits(run[n], s', q) {
      OwnPopEnds(run[n], s', q);
    }
    if PopWaits(run[n], run[n], q) { WaitsForPush(run, n, q); }
  }

  // --------------------------------------------------------- what a pop decides

  ghost predicate DecidesRight(s: State, at: Place, next: Place) {
    && (at.LookEnq? ==> next.Wait? || next.Skip?)
    && (at.LookEnq? ==> (next.Wait? <==> Reserved(s.segs, Pos(at.h, at.i))))
    && (at.ReadEnq? ==> next.Claim? || next.CheckNext?)
    && (at.ReadEnq? && at.h < |s.segs| ==> (next.Claim? <==> at.d < s.segs[at.h].enq))
    && (at.CheckNext? ==> if at.h + 1 < |s.segs| then next.Claim? else next.Away?)
  }

  lemma LookDecides(s: State, s': State, q: nat)
    requires PopLookEnq(s, s', q) && s.cons[q].at.i < SEGMENT
    ensures DecidesRight(s, s.cons[q].at, s'.cons[q].at)
  {}

  lemma ReadDecides(s: State, s': State, q: nat)
    requires PopReadEnq(s, s', q) || PopCheckNext(s, s', q)
    ensures DecidesRight(s, s.cons[q].at, s'.cons[q].at)
  {}

  // At those places a pop's step is one of those.
  lemma StepAtPlace(s: State, s': State, q: nat)
    requires PopStep(s, s', q)
    ensures s.cons[q].at.LookEnq? ==> PopLookEnq(s, s', q)
    ensures s.cons[q].at.ReadEnq? ==> PopReadEnq(s, s', q)
    ensures s.cons[q].at.CheckNext? ==> PopCheckNext(s, s', q)
  {}

  lemma HeldIsInSegment(s: State, q: nat)
    requires Inv(s) && q < |s.cons| && s.cons[q].at.LookEnq?
    ensures s.cons[q].at.i < SEGMENT
  {
    assert PlaceOk(s, q, s.cons[q]);
    assert Claimed(s.segs, Pos(s.cons[q].at.h, s.cons[q].at.i));
  }

  lemma NextDecides(s: State, s': State, q: nat)
    requires PopStep(s, s', q) && (s.cons[q].at.LookEnq? ==> s.cons[q].at.i < SEGMENT)
    ensures DecidesRight(s, s.cons[q].at, s'.cons[q].at)
  {
    StepAtPlace(s, s', q);
    if s.cons[q].at.LookEnq? { LookDecides(s, s', q); }
    else if s.cons[q].at.ReadEnq? || s.cons[q].at.CheckNext? { ReadDecides(s, s', q); }
  }

  /** A pop that found its cell empty waits for it exactly if a push has taken the
      cell, as it looks at the count, and otherwise goes to skip it. One that has
      read the index and the count goes on to take a cell exactly if the index is
      below the count, or else the next segment is linked. */
  lemma Decides(run: seq<State>, k: nat, q: nat)
    requires IsRun(run) && k + 1 < |run| && PopStep(run[k], run[k + 1], q)
    ensures DecidesRight(run[k], run[k].cons[q].at, run[k + 1].cons[q].at)
  {
    RunHolds(run, k);
    if run[k].cons[q].at.LookEnq? { HeldIsInSegment(run[k], q); }
    NextDecides(run[k], run[k + 1], q);
  }

  // ------------------------------------------------------- one element for a pop

  // A step hands out an element only as a pop that has it ends, and then that
  // one alone.
  ghost predicate HandsOne(s: State, s': State) {
    || s'.out == s.out
    || exists q :: 0 <= q < |s.cons| == |s'.cons| && HandedBy(s, s', q)
  }

  ghost predicate HandedBy(s: State, s': State, q: nat)
    requires q < |s.cons| == |s'.cons|
  {
    && s.cons[q].at.Take? && s'.cons[q].at.Away?
    && s'.out == s.out + {Pos(s.cons[q].at.h, s.cons[q].at.i)}
  }

  lemma TakeHands(s: State, s': State, q: nat)
    requires PopTake(s, s', q)
    ensures HandsOne(s, s')
  {
    assert HandedBy(s, s', q);
  }

  lemma PopHandsNone(s: State, s': State, q: nat)
    requires PopStep(s, s', q) && !PopTake(s, s', q)
    ensures s'.out == s.out
  {}

  lemma PushHandsNone(s: State, s': State, p: nat)
    requires PushStep(s, s', p)
    ensures s'.out == s.out
  {}

  /** In every run: a pop hands out one element at most, as it ends. */
  lemma OnePerPop(run: seq<State>, k: nat)
    requires IsRun(run) && k + 1 < |run|
    ensures HandsOne(run[k], run[k + 1])
  {
    assert Next(run[k], run[k + 1]);
    var p: nat :| PushStep(run[k], run[k + 1], p) || PopStep(run[k], run[k + 1], p);
    if PushStep(run[k], run[k + 1], p) { PushHandsNone(run[k], run[k + 1], p); }
    else if PopTake(run[k], run[k + 1], p) { TakeHands(run[k], run[k + 1], p); }
    else { PopHandsNone(run[k], run[k + 1], p); }
  }

  // ------------------------------------------------------------------ pushes

  // Items left, segments past the tail, what is left of the tail segment, whether
  // it is in a run of cells or has an old tail, and the steps to the end of its
  // round.
  function PushRank(s: State, b: Producer): Rank
    requires b.Pushing?
  {
    var rem, far := Left(b.k, |b.items|), Left(s.tail, |s.segs|);
    var near := if s.tail < |s.segs| then Left(s.segs[s.tail].enq, SEGMENT) else 0;
    match b.at
    case ReadTail => Rank(rem, far, near, 0, 6)
    case Reserve(t) => Rank(rem, far, near, If(t < s.tail), 5)
    case Fill(_, j, stop, _) => Rank(rem, far, near, 1, 6 + Left(j, stop))
    case GiveUp(_, j, stop, _) => Rank(rem, far, near, 1, 5 + Left(j, stop))
    case ReadNext(t) => Rank(rem, far, near, If(t < s.tail), 4)
    case Link(t) => Rank(rem, far, near, If(t < s.tail), 3)
    case MoveTail(t) => Rank(rem, far, near, If(t < s.tail), 2)
    case Placed => Rank(rem, far, near, 0, 0)
  }

  ghost predicate PushEnds(s: State, s': State, p: nat) {
    && p < |s.prods| == |s'.prods| && s.prods[p].Pushing?
    && (s'.prods[p].Idle? || Less(PushRank(s', s'.prods[p]), PushRank(s, s.prods[p])))
  }

  lemma LinkEnds(s: State, s': State, p: nat)
    requires Inv(s) && (PushLink(s, s', p) || PushMoveTail(s, s', p) || PushEnd(s, s', p))
    ensures PushEnds(s, s', p)
  {
    assert ProducerOk(s, p, s.prods[p]);
  }

  lemma RoundEnds(s: State, s': State, p: nat)
    requires Inv(s) && (PushProtect(s, s', p) || PushReserve(s, s', p) || PushReadNext(s, s', p))
    ensures PushEnds(s, s', p)
  {
    assert ProducerOk(s, p, s.prods[p]);
  }

  lemma FillEnds(s: State, s': State, p: nat)
    requires PushFill(s, s', p)
    ensures PushEnds(s, s', p)
  {
    RankItems(s, s.prods[p]);
    RankItems(s', s'.prods[p]);
  }

  lemma RankItems(s: State, b: Producer)
    requires b.Pushing?
    ensures PushRank(s, b).a == Left(b.k, |b.items|)
  {}

  lemma GiveUpEnds(s: State, s': State, p: nat)
    requires Inv(s) && (PushSkipped(s, s', p) || PushGiveUp(s, s', p))
    ensures PushEnds(s, s', p)
  {
    assert ProducerOk(s, p, s.prods[p]);
  }

  lemma OwnPushEnds(s: State, s': State, p: nat)
    requires Inv(s) && At(s, p) && PushStep(s, s', p)
    ensures PushEnds(s, s', p)
  {
    if PushLink(s, s', p) || PushMoveTail(s, s', p) || PushEnd(s, s', p) { LinkEnds(s, s', p); }
    else if PushFill(s, s', p) { FillEnds(s, s', p); }
    else if PushSkipped(s, s', p) || PushGiveUp(s, s', p) { GiveUpEnds(s, s', p); }
    else { RoundEnds(s, s', p); }
  }

  lemma InFirstSet(seg: nat, m: nat)
    ensures forall x: Pos :: x in FirstSet(seg, m) <==> x.seg == seg && x.idx < m
  {
    forall x: Pos | x.seg == seg && x.idx < m ensures x in FirstSet(seg, m) {
      assert x == Pos(seg, x.idx);
    }
  }

  lemma CarriedCells(b: Producer, seg: nat, m: nat, cells: map<Pos, Cell>) returns (cells': map<Pos, Cell>)
    requires b.Pushing? && b.k + m <= |b.items|
    ensures forall x :: x in cells' <==> x in cells || (x.seg == seg && x.idx < m)
    ensures forall x :: x in cells' ==>
              cells'[x] == if x.seg == seg && x.idx < m then Full(b.items[b.k + x.idx]) else cells[x]
  {
    InFirstSet(seg, m);
    cells' := cells + (map x | x in FirstSet(seg, m) :: Full(b.items[b.k + x.idx]));
  }

  lemma LinksFrom(s: State, p: nat) returns (s': State)
    requires At(s, p) && s.prods[p].at.Link? && s.prods[p].at.t + 1 >= |s.segs| && s.prods[p].k <= |s.prods[p].items|
    ensures PushLink(s, s', p)
  {
    var b := s.prods[p];
    var seg, m := b.at.t + 1, Min(SEGMENT, |b.items| - b.k);
    var cells := CarriedCells(b, seg, m, s.cells);
    var c := b.(k := b.k + m, mine := b.mine + seq(m, (i: nat) => Pos(seg, i)), at := MoveTail(b.at.t));
    assert Carries(b, c, seg, m, s.cells, cells);
    s' := s.(prods := s.prods[p := c], segs := s.segs + [Segment(0, m)], cells := cells);
  }

  lemma GiveUpSteps(s: State, p: nat) returns (s': State)
    requires At(s, p) && s.prods[p].at.GiveUp?
    ensures PushGiveUp(s, s', p)
  {
    var b := s.prods[p];
    var GiveUp(t, j, stop, end) := b.at;
    var x := Pos(t, j);
    s' := s.(cells := if x in s.cells then s.cells else s.cells[x := Skipped], owner := s.owner - {x},
             prods := s.prods[p := b.(at := if j + 1 < stop then GiveUp(t, j + 1, stop, end)
                                            else AfterRun(t, end, false))]);
  }

  lemma FillSteps(s: State, p: nat) returns (s': State)
    requires At(s, p) && s.prods[p].at.Fill? && s.prods[p].k < |s.prods[p].items|
    ensures PushStep(s, s', p)
  {
    var b := s.prods[p];
    var Fill(t, j, stop, end) := b.at;
    var x := Pos(t, j);
    if x in s.cells {
      s' := s.(owner := s.owner - {x},
               prods := s.prods[p := b.(at := if j + 1 < stop then GiveUp(t, j + 1, stop, end)
                                              else AfterRun(t, end, false))]);
      assert PushSkipped(s, s', p);
    } else {
      s' := s.(cells := s.cells[x := Full(b.items[b.k])], owner := s.owner - {x},
               prods := s.prods[p := b.(k := b.k + 1, mine := b.mine + [x],
                          at := if j + 1 < stop then Fill(t, j + 1, stop, end)
                                else AfterRun(t, end, b.k + 1 == |b.items|))]);
      assert PushFill(s, s', p);
    }
  }

  lemma PushHasStep(s: State, p: nat) returns (s': State)
    requires Inv(s) && At(s, p)
    ensures PushStep(s, s', p)
  {
    assert ProducerOk(s, p, s.prods[p]);
    var b := s.prods[p];
    match b.at
    case ReadTail =>
      s' := s.(prods := s.prods[p := b.(at := Reserve(s.tail))]);
      assert PushProtect(s, s', p);
    case Reserve(t) =>
      s' := Reserves(s, p);
    case Fill(_, _, _, _) =>
      s' := FillSteps(s, p);
    case GiveUp(_, _, _, _) =>
      s' := GiveUpSteps(s, p);
    case ReadNext(t) =>
      s' := s.(prods := s.prods[p := b.(at := if t + 1 < |s.segs| then MoveTail(t) else Link(t))]);
      assert PushReadNext(s, s', p);
    case Link(t) =>
      if t + 1 < |s.segs| {
        s' := s.(prods := s.prods[p := b.(at := MoveTail(t))]);
        assert PushLink(s, s', p);
      } else {
        s' := LinksFrom(s, p);
      }
    case MoveTail(t) =>
      s' := s.(prods := s.prods[p := b.(at := if b.k == |b.items| then Placed else ReadTail)],
               tail := if s.tail == t then t + 1 else s.tail);
      assert PushMoveTail(s, s', p);
    case Placed =>
      s' := s.(prods := s.prods[p := Idle], finished := s.finished + Elements(b.mine));
      assert PushEnd(s, s', p);
  }

  lemma Reserves(s: State, p: nat) returns (s': State)
    requires Inv(s) && At(s, p) && s.prods[p].at.Reserve?
    ensures PushStep(s, s', p)
  {
    assert ProducerOk(s, p, s.prods[p]);
    var b := s.prods[p];
    var t := b.at.t;
    var i := s.segs[t].enq;
    var end := i + (|b.items| - b.k);
    var stop := Min(end, SEGMENT);
    s' := s.(prods := s.prods[p := b.(at := if i < SEGMENT then Fill(t, i, stop, end) else ReadNext(t))],
             segs := s.segs[t := s.segs[t].(enq := end)],
             owner := if i < SEGMENT then s.owner + OwnedBy(t, i, stop, p) else s.owner);
    assert PushReserve(s, s', p);
  }

  /** In every state of every run: a push under way has a step, and each step of
      its own returns or lowers its rank. */
  lemma PushGoesOn(run: seq<State>, n: nat, p: nat)
    requires IsRun(run) && n < |run| && At(run[n], p)
    ensures exists s' :: PushStep(run[n], s', p)
    ensures forall s' :: PushStep(run[n], s', p) ==> PushEnds(run[n], s', p)
  {
    RunHolds(run, n);
    var s' := PushHasStep(run[n], p);
    forall s' | PushStep(run[n], s', p) ensures PushEnds(run[n], s', p) { OwnPushEnds(run[n], s', p); }
  }
}
