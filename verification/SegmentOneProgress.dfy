/** The single consumer of the segmented queue never waits: in every state of a
    pop it has a step, and each of its steps ends the pop or lowers a rank. What
    pushes do meanwhile leaves the looks at the holes as bounded as they were. */
module SegmentOneProgress {
  import opened Basics
  import opened Positions
  import opened SegmentQueueOne

  // Compared from the first on.
  datatype Rank = Rank(phase: nat, far: nat, near: nat, last: nat)

  predicate Less(a: Rank, b: Rank) {
    || a.phase < b.phase
    || (a.phase == b.phase && a.far < b.far)
    || (a.phase == b.phase && a.far == b.far && a.near < b.near)
    || (a.phase == b.phase && a.far == b.far && a.near == b.near && a.last < b.last)
  }

  function Left(a: nat, b: nat): nat {
    if a < b then b - a else 0
  }

  // At the top, what is left of the list and of the head segment; among the
  // holes, those not looked at; in the walk, what is left of the list and of
  // the segment; in the looks that follow, the holes before the cell found, and
  // those not looked at again.
  function RankOf(s: State): Rank {
    var c := s.cons;
    var deq := if s.head < |s.segs| then s.segs[s.head].deq else 0;
    match c.at
    case Away => Rank(0, 0, 0, 0)
    case Top => Rank(3, Left(s.head, |s.segs|), Left(deq, SEGMENT), 2)
    case AdvanceTail => Rank(3, Left(s.head, |s.segs|), Left(deq, SEGMENT), 1)
    case AdvanceHead => Rank(3, Left(s.head, |s.segs|), Left(deq, SEGMENT), 0)
    case Holes(k) => Rank(2, Left(k, |c.holes|), 0, 0)
    case Walk => Rank(1, Left(c.walk.seg, |s.segs|), Left(c.walk.idx, SEGMENT), 1)
    case Walking(_) => Rank(1, Left(c.walk.seg, |s.segs|), Left(c.walk.idx, SEGMENT), 0)
    case Look(k, m) => Rank(0, k, Left(m, k), 0)
  }

  // ------------------------------------------------------------- it has a step

  lemma TopSteps(s: State) returns (s': State)
    requires Inv(s) && s.cons.at.Top?
    ensures PopStep(s, s')
  {
    var x := HeadPos(s);
    if x.idx >= SEGMENT {
      s' := s.(cons := s.cons.(at := if s.head + 1 == |s.segs| then Away else AdvanceTail));
      assert PopNoNext(s, s') || PopSeesNext(s, s');
    } else if x in s.cells && s.cells[x].taken {
      s' := s.(segs := s.segs[s.head := s.segs[s.head].(deq := x.idx + 1)]);
      assert PopStepOver(s, s');
    } else if s.cons.holes == [] && Full(s, x) {
      s' := s.(segs := s.segs[s.head := s.segs[s.head].(deq := x.idx + 1)], out := s.out + [x],
               cons := s.cons.(at := Away));
      assert PopInOrder(s, s');
    } else {
      s' := s.(cons := s.cons.(at := Holes(0), walk := if s.cons.holes == [] then x else s.cons.walk));
      assert PopLookAhead(s, s');
    }
  }

  lemma AheadSteps(s: State) returns (s': State)
    requires Inv(s) && (s.cons.at.AdvanceTail? || s.cons.at.AdvanceHead? || s.cons.at.Holes?)
    ensures PopStep(s, s')
  {
    if s.cons.at.AdvanceTail? {
      s' := s.(cons := s.cons.(at := AdvanceHead), tail := if s.tail == s.head then s.head + 1 else s.tail);
      assert PopAdvanceTail(s, s');
    } else if s.cons.at.AdvanceHead? {
      s' := s.(cons := s.cons.(at := Top), head := s.head + 1);
      assert PopAdvanceHead(s, s');
    } else if s.cons.at.k < |s.cons.holes| {
      var k := s.cons.at.k;
      s' := s.(cons := s.cons.(at := if Full(s, s.cons.holes[k]) then Look(k, 0) else Holes(k + 1)));
      assert PopHole(s, s');
    } else {
      s' := s.(cons := s.cons.(at := Walk));
      assert PopNoHole(s, s');
    }
  }

  lemma WalkSteps(s: State) returns (s': State)
    requires Inv(s) && (s.cons.at.Walk? || s.cons.at.Walking?)
    ensures PopStep(s, s')
  {
    var x := s.cons.walk;
    if s.cons.at.Walk? {
      s' := s.(cons := s.cons.(at := Walking(s.segs[x.seg].enq)));
      assert WalkCount(s, s');
    } else if x.idx < Min(s.cons.at.taken, SEGMENT) {
      s' := s.(cons := s.cons.(holes := s.cons.holes + [x], walk := Pos(x.seg, x.idx + 1),
                               at := if Full(s, x) then Look(|s.cons.holes|, 0) else s.cons.at));
      assert WalkCell(s, s');
    } else if s.cons.at.taken > SEGMENT && x.seg + 1 < |s.segs| {
      s' := s.(cons := s.cons.(walk := Pos(x.seg + 1, 0), at := Walk));
      assert WalkOn(s, s');
    } else {
      s' := s.(cons := s.cons.(at := Away));
      assert WalkEnd(s, s');
    }
  }

  lemma LookSteps(s: State) returns (s': State)
    requires Inv(s) && s.cons.at.Look?
    ensures PopStep(s, s')
  {
    var Look(k, m) := s.cons.at;
    if m < k {
      s' := s.(cons := s.cons.(at := if Full(s, s.cons.holes[m]) then Look(m, 0) else Look(k, m + 1)));
      assert LookAgain(s, s');
    } else {
      var x := s.cons.holes[k];
      s' := s.(cons := s.cons.(holes := s.cons.holes[..k] + s.cons.holes[k + 1..], at := Away),
               cells := s.cells[x := s.cells[x].(taken := true)], out := s.out + [x]);
      assert LookTake(s, s');
    }
  }

  lemma Steps(s: State) returns (s': State)
    requires Inv(s) && !s.cons.at.Away?
    ensures PopStep(s, s')
  {
    if s.cons.at.Top? { s' := TopSteps(s); }
    else if s.cons.at.Walk? || s.cons.at.Walking? { s' := WalkSteps(s); }
    else if s.cons.at.Look? { s' := LookSteps(s); }
    else { s' := AheadSteps(s); }
  }

  // ---------------------------------------------------- and its steps come to an end

  ghost predicate Ends(s: State, s': State) {
    s'.cons.at.Away? || Less(RankOf(s'), RankOf(s))
  }

  lemma HeadEnds(s: State, s': State)
    requires Inv(s) && !s.cons.at.Away?
    requires PopNoNext(s, s') || PopSeesNext(s, s') || PopAdvanceTail(s, s') || PopAdvanceHead(s, s')
    ensures Ends(s, s')
  {}

  lemma TopEnds(s: State, s': State)
    requires Inv(s) && (PopStepOver(s, s') || PopInOrder(s, s') || PopLookAhead(s, s'))
    ensures Ends(s, s')
  {}

  lemma HoleEnds(s: State, s': State)
    requires Inv(s) && (PopHole(s, s') || PopNoHole(s, s') || LookAgain(s, s') || LookTake(s, s'))
    ensures Ends(s, s')
  {}

  lemma WalkEnds(s: State, s': State)
    requires Inv(s) && (WalkCount(s, s') || WalkCell(s, s') || WalkOn(s, s') || WalkEnd(s, s'))
    ensures Ends(s, s')
  {}

  lemma StepEnds(s: State, s': State)
    requires Inv(s) && !s.cons.at.Away? && PopStep(s, s')
    ensures Ends(s, s')
  {
    if PopStepOver(s, s') || PopInOrder(s, s') || PopLookAhead(s, s') { TopEnds(s, s'); }
    else if PopHole(s, s') || PopNoHole(s, s') || LookAgain(s, s') || LookTake(s, s') { HoleEnds(s, s'); }
    else if WalkCount(s, s') || WalkCell(s, s') || WalkOn(s, s') || WalkEnd(s, s') { WalkEnds(s, s'); }
    else { HeadEnds(s, s'); }
  }

  /** In every state of every run: a pop under way has a step, and each step of
      its own ends it or lowers its rank. */
  lemma NeverWaits(run: seq<State>, n: nat)
    requires IsRun(run) && n < |run| && !run[n].cons.at.Away?
    ensures exists s' :: PopStep(run[n], s')
    ensures forall s' :: PopStep(run[n], s') ==> Ends(run[n], s')
  {
    RunHolds(run, n);
    var s' := Steps(run[n]);
    forall s' | PopStep(run[n], s') ensures Ends(run[n], s') { StepEnds(run[n], s'); }
  }

  /** A push's step leaves the rank of a pop among its holes as it is: it looks at
      each hole once, and then at most as often as there are holes before the
      cell found, whatever the pushes do. */
  lemma PushesLeaveLooks(s: State, s': State, p: nat)
    requires PushStep(s, s', p) && (s.cons.at.Holes? || s.cons.at.Look?)
    ensures s'.cons == s.cons && RankOf(s') == RankOf(s)
  {
    PushLeavesConsumer(s, s', p);
  }

  lemma PushLeavesConsumer(s: State, s': State, p: nat)
    requires PushStep(s, s', p)
    ensures s'.cons == s.cons
  {}

  // ------------------------------------------------------ what pushes owe

  // The push is on its way to fill cell x.
  ghost predicate Owes(b: Producer, x: Pos) {
    b.Pushing? && b.at.Fill? && b.at.t == x.seg && b.at.j <= x.idx < b.at.stop
  }

  ghost predicate Taken(s: State, x: Pos) {
    x.seg < |s.segs| && x.idx < SEGMENT && x.idx < s.segs[x.seg].enq
  }

  ghost predicate OwedByOne(s: State, x: Pos) {
    exists p :: 0 <= p < |s.prods| && Owes(s.prods[p], x)
  }

  ghost predicate AllOwed(s: State) {
    forall x :: Taken(s, x) && x !in s.cells ==> OwedByOne(s, x)
  }

  // What a step leaves owed: every cell not filled in it stays owed, and a cell
  // taken in it is.
  lemma OwedStays(s: State, s': State, p: nat, x: Pos)
    requires p < |s.prods| == |s'.prods| && s'.prods == s.prods[p := s'.prods[p]] && OwedByOne(s, x)
    requires Owes(s.prods[p], x) ==> Owes(s'.prods[p], x)
    ensures OwedByOne(s', x)
  {
    var q :| 0 <= q < |s.prods| && Owes(s.prods[q], x);
    assert Owes(s'.prods[q], x);
  }

  lemma ReserveOwes(s: State, s': State, p: nat)
    requires Inv(s) && AllOwed(s) && PushReserve(s, s', p)
    ensures AllOwed(s')
  {
    forall x | Taken(s', x) && x !in s'.cells ensures OwedByOne(s', x) {
      if Taken(s, x) { OwedStays(s, s', p, x); } else { assert Owes(s'.prods[p], x); }
    }
  }

  lemma FillOwes(s: State, s': State, p: nat)
    requires Inv(s) && AllOwed(s) && PushFill(s, s', p)
    ensures AllOwed(s')
  {
    assert ProducerOk(s, s.prods[p]);
    forall x | Taken(s', x) && x !in s'.cells ensures OwedByOne(s', x) {
      assert x != Pos(s.prods[p].at.t, s.prods[p].at.j);
      OwedStays(s, s', p, x);
    }
  }

  lemma LinkOwes(s: State, s': State, p: nat)
    requires Inv(s) && AllOwed(s) && PushLink(s, s', p)
    ensures AllOwed(s')
  {
    forall x | Taken(s', x) && x !in s'.cells ensures OwedByOne(s', x) {
      OwedStays(s, s', p, x);
    }
  }

  lemma RestOwes(s: State, s': State, p: nat)
    requires Inv(s) && AllOwed(s) && PushStep(s, s', p)
    requires !PushReserve(s, s', p) && !PushFill(s, s', p) && !PushLink(s, s', p)
    ensures AllOwed(s')
  {
    OtherStep(s, s', p);
    forall x | Taken(s', x) && x !in s'.cells ensures OwedByOne(s', x) {
      OwedStays(s, s', p, x);
    }
  }

  lemma PopOwes(s: State, s': State)
    requires Inv(s) && AllOwed(s) && PopStep(s, s')
    ensures AllOwed(s')
  {
    PopLeavesTaken(s, s');
    forall x | Taken(s', x) && x !in s'.cells ensures OwedByOne(s', x) {
      assert Taken(s, x);
      assert OwedByOne(s, x);
    }
  }

  lemma PopLeavesTaken(s: State, s': State)
    requires Inv(s) && PopStep(s, s')
    ensures s'.prods == s.prods && |s'.segs| == |s.segs| && s.cells.Keys <= s'.cells.Keys
    ensures forall i :: 0 <= i < |s.segs| ==> s'.segs[i].enq == s.segs[i].enq
  {
    PopStepKeeps(s, s');
  }

  ghost predicate OwedAt(run: seq<State>, k: nat)
    requires k + 1 < |run|
  {
    AllOwed(run[k]) ==> AllOwed(run[k + 1])
  }

  lemma RunOwes(run: seq<State>, k: nat)
    requires IsRun(run) && k + 1 < |run|
    ensures OwedAt(run, k)
  {
    RunHolds(run, k);
    assert Next(run[k], run[k + 1]);
    if AllOwed(run[k]) {
      if PopStep(run[k], run[k + 1]) {
        PopOwes(run[k], run[k + 1]);
      } else {
        var p: nat :| PushStep(run[k], run[k + 1], p);
        PushOwes(run[k], run[k + 1], p);
      }
    }
  }

  lemma PushOwes(s: State, s': State, p: nat)
    requires Inv(s) && AllOwed(s) && PushStep(s, s', p)
    ensures AllOwed(s')
  {
    if PushReserve(s, s', p) { ReserveOwes(s, s', p); }
    else if PushFill(s, s', p) { FillOwes(s, s', p); }
    else if PushLink(s, s', p) { LinkOwes(s, s', p); }
    else { RestOwes(s, s', p); }
  }

  lemma {:induction false} OwedOn(run: seq<State>, n: nat)
    requires n < |run| && Init(run[0]) && forall k: nat :: k + 1 < |run| ==> OwedAt(run, k)
    ensures AllOwed(run[n])
  {
    if n > 0 {
      OwedOn(run, n - 1);
      assert OwedAt(run, n - 1);
    }
  }

  /** In every run: a cell that a push has taken and that is not filled, so every
      hole the consumer keeps, is owed by a push on its way to fill it. */
  lemma HolesAreOwed(run: seq<State>, n: nat, x: Pos)
    requires IsRun(run) && n < |run| && Taken(run[n], x) && x !in run[n].cells
    ensures OwedByOne(run[n], x)
  {
    forall k: nat | k + 1 < |run| ensures OwedAt(run, k) { RunOwes(run, k); }
    OwedOn(run, n);
  }

  // ----------------------------------------------------- a push comes to its end

  // Items left, segments past the tail, whether the tail it has read is past,
  // and the steps to the end of its round.
  function PushRank(s: State, b: Producer): Rank
    requires b.Pushing?
  {
    var rem, far := Left(b.k, |b.items|), Left(s.tail, |s.segs|);
    match b.at
    case ReadTail => Rank(rem, far, 0, 7)
    case Reserve(t) => Rank(rem, far, Stale(s, t), 6)
    case Fill(t, _, _, _) => Rank(rem, far, Stale(s, t), 5)
    case ReadNext(t) => Rank(rem, far, Stale(s, t), 4)
    case Link(t) => Rank(rem, far, Stale(s, t), 3)
    case MoveTail(t) => Rank(rem, far, Stale(s, t), 2)
    case Placed => Rank(rem, far, 0, 0)
  }

  function Stale(s: State, t: nat): nat {
    if t < s.tail then 1 else 0
  }

  ghost predicate PushEnds(s: State, s': State, p: nat) {
    && p < |s.prods| == |s'.prods| && s.prods[p].Pushing?
    && (s'.prods[p].Idle? || Less(PushRank(s', s'.prods[p]), PushRank(s, s.prods[p])))
  }

  lemma LinkEnds(s: State, s': State, p: nat)
    requires Inv(s) && (PushLink(s, s', p) || PushMoveTail(s, s', p) || PushEnd(s, s', p))
    ensures PushEnds(s, s', p)
  {
    assert ProducerOk(s, s.prods[p]);
  }

  lemma RoundEnds(s: State, s': State, p: nat)
    requires Inv(s) && (PushProtect(s, s', p) || PushReserve(s, s', p) || PushFill(s, s', p) || PushReadNext(s, s', p))
    ensures PushEnds(s, s', p)
  {
    assert ProducerOk(s, s.prods[p]);
  }

  lemma CarriedCells(b: Producer, seg: nat, m: nat, clock: nat, cells: map<Pos, Cell>) returns (cells': map<Pos, Cell>)
    requires b.Pushing? && b.k + m <= |b.items|
    ensures forall x :: x in cells' <==> x in cells || (x.seg == seg && x.idx < m)
    ensures forall x :: x in cells' && !(x.seg == seg && x.idx < m) ==> cells'[x] == cells[x]
    ensures forall x :: x in cells' && x.seg == seg && x.idx < m ==> Carried(b, x, clock, cells'[x])
  {
    var added := map x | x in FirstSet(seg, m) ::
      Cell(b.items[b.k + x.idx], false, b.Earlier() + FirstSet(seg, x.idx), clock);
    assert forall x :: x in added <==> x.seg == seg && x.idx < m by { InFirstSet(seg, m); }
    cells' := cells + added;
    forall x | x in added ensures Carried(b, x, clock, added[x]) { InFirstSet(seg, x.idx); }
  }

  lemma InFirstSet(seg: nat, m: nat)
    ensures forall x: Pos :: x in FirstSet(seg, m) <==> x.seg == seg && x.idx < m
  {
    forall x: Pos | x.seg == seg && x.idx < m ensures x in FirstSet(seg, m) {
      assert x == Pos(seg, x.idx);
    }
  }

  // The segment a push links, with what is left of its batch.
  lemma Links(s: State, p: nat) returns (s': State)
    requires Inv(s) && At(s, p) && s.prods[p].at.Link? && s.prods[p].at.t + 1 >= |s.segs|
    ensures PushLink(s, s', p)
  {
    assert ProducerOk(s, s.prods[p]);
    s' := LinksFrom(s, p);
  }

  lemma LinksFrom(s: State, p: nat) returns (s': State)
    requires At(s, p) && s.prods[p].at.Link? && s.prods[p].at.t + 1 >= |s.segs| && s.prods[p].k <= |s.prods[p].items|
    ensures PushLink(s, s', p)
  {
    var b := s.prods[p];
    var seg, m := b.at.t + 1, Min(SEGMENT, |b.items| - b.k);
    var cells := CarriedCells(b, seg, m, s.clock, s.cells);
    var c := b.(k := b.k + m, mine := b.mine + seq(m, (i: nat) => Pos(seg, i)), at := MoveTail(b.at.t));
    assert Carries(b, c, seg, m, s.clock, s.cells, cells);
    s' := s.(prods := s.prods[p := c], clock := s.clock + 1, segs := s.segs + [Segment(0, m)], cells := cells);
  }

  lemma PushHasStep(s: State, p: nat) returns (s': State)
    requires Inv(s) && At(s, p)
    ensures PushStep(s, s', p)
  {
    assert ProducerOk(s, s.prods[p]);
    var b := s.prods[p];
    match b.at
    case ReadTail =>
      s' := s.(prods := s.prods[p := b.(at := Reserve(s.tail))]);
      assert PushProtect(s, s', p);
    case Reserve(t) =>
      var i := s.segs[t].enq;
      var end := i + (|b.items| - b.k);
      var at := if i < SEGMENT then Fill(t, i, Min(end, SEGMENT), end) else ReadNext(t);
      s' := s.(prods := s.prods[p := b.(at := at)], segs := s.segs[t := s.segs[t].(enq := end)]);
      assert PushReserve(s, s', p);
    case Fill(t, j, _, _) =>
      var x := Pos(t, j);
      s' := s.(prods := s.prods[p := b.(k := b.k + 1, mine := b.mine + [x], at := AfterFill(b))], clock := s.clock + 1,
               cells := s.cells[x := Cell(b.items[b.k], false, b.Earlier(), s.clock)]);
      assert PushFill(s, s', p);
    case ReadNext(t) =>
      s' := s.(prods := s.prods[p := b.(at := if t + 1 < |s.segs| then MoveTail(t) else Link(t))]);
      assert PushReadNext(s, s', p);
    case Link(t) =>
      if t + 1 < |s.segs| {
        s' := s.(prods := s.prods[p := b.(at := MoveTail(t))]);
        assert PushLink(s, s', p);
      } else {
        s' := Links(s, p);
      }
    case MoveTail(t) =>
      s' := s.(prods := s.prods[p := b.(at := if b.k == |b.items| then Placed else ReadTail)],
               tail := if s.tail == t then t + 1 else s.tail);
      assert PushMoveTail(s, s', p);
    case Placed =>
      s' := s.(prods := s.prods[p := Idle], finished := s.finished + Elements(b.mine));
      assert PushEnd(s, s', p);
  }

  /** In every state of every run: a push under way has a step, and each step of
      its own returns or lowers its rank. */
  lemma PushGoesOn(run: seq<State>, n: nat, p: nat)
    requires IsRun(run) && n < |run| && At(run[n], p)
    ensures exists s' :: PushStep(run[n], s', p)
    ensures forall s' :: PushStep(run[n], s', p) ==> PushEnds(run[n], s', p)
  {
    RunHolds(run, n);
    var s' := PushHasStep(run[n], p);
    forall s' | PushStep(run[n], s', p) ensures PushEnds(run[n], s', p) { OwnPushEnds(run[n], s', p); }
  }

  lemma OwnPushEnds(s: State, s': State, p: nat)
    requires Inv(s) && At(s, p) && PushStep(s, s', p)
    ensures PushEnds(s, s', p)
  {
    if PushLink(s, s', p) || PushMoveTail(s, s', p) || PushEnd(s, s', p) {
      LinkEnds(s, s', p);
    } else {
      RoundEnds(s, s', p);
    }
  }
}
