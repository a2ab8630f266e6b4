/** The segmented queue with any number of producers and one consumer
    (runtime/segment_queue.hpp, kManyConsumers false).

    Producers take cells of the tail segment with a fetch-and-add and fill
    them; the single consumer takes the cells in order, looks past a cell
    that is taken and not yet filled, and keeps the cells it has passed in
    `holes`. One step of the machine is one access to shared memory. Segments
    are named by their place in the list, so `next` of segment i is i + 1 and
    is null while i is the last. */
module SegmentQueueOne {
  import opened Basics
  import opened Positions

  type Elem(!new)

  // Cells in a segment (kSegment), any positive number.
  const SEGMENT: Positive

  datatype Segment = Segment(deq: nat, enq: nat)

  // A cell that has been filled; a cell not in the map is kEmpty. `taken` is
  // kTaken. History: `after` holds the cells whose elements this one must
  // follow (those of pushes that had returned when its push began, and the
  // earlier ones of its own push), `stamp` when the cell was filled.
  datatype Cell = Cell(val: Elem, taken: bool, after: set<Pos>, stamp: nat)

  // Where a push is in push_run.
  datatype Stage =
    | ReadTail
    | Reserve(t: nat)
    | Fill(t: nat, j: nat, stop: nat, end: nat)
    | ReadNext(t: nat)
    | Link(t: nat)
    | MoveTail(t: nat)
    | Placed

  // A push of items, of which the first k are in cells. History: `mine` lists
  // those cells, `before` holds the cells of the pushes that had returned
  // when this one began.
  datatype Producer =
    | Idle
    | Pushing(items: seq<Elem>, k: nat, mine: seq<Pos>, before: set<Pos>, at: Stage)
  {
    // The cells whose elements must precede the push's next one.
    ghost function Earlier(): set<Pos>
      requires Pushing?
    {
      before + Elements(mine)
    }
  }

  // Where the consumer is: in pop_one (Top, AdvanceTail, AdvanceHead), in
  // pop_ahead's first look (Holes), in walk_on (Walk, Walking), in the looks
  // that follow (Look).
  datatype Place =
    | Away
    | Top
    | AdvanceTail
    | AdvanceHead
    | Holes(k: nat)
    | Walk
    | Walking(taken: nat)
    | Look(k: nat, m: nat)

  // `due` (history) holds the cells filled when the pop began.
  datatype Consumer = Consumer(holes: seq<Pos>, walk: Pos, due: set<Pos>, at: Place)

  // History: `out` lists the popped cells in the order popped, `finished`
  // holds the cells of the pushes that have returned, `clock` counts fills.
  datatype State = State(segs: seq<Segment>, cells: map<Pos, Cell>, head: nat, tail: nat,
                         prods: seq<Producer>, cons: Consumer,
                         out: seq<Pos>, finished: set<Pos>, clock: nat)

  ghost predicate Init(s: State) {
    && s.segs == [Segment(0, 0)]
    && s.cells == map[]
    && s.head == 0 && s.tail == 0
    && (forall p :: 0 <= p < |s.prods| ==> s.prods[p] == Idle)
    && s.cons == Consumer([], Pos(0, 0), {}, Away)
    && s.out == [] && s.finished == {} && s.clock == 0
  }

  // ---------------------------------------------------------------- pushes

  ghost predicate At(s: State, p: nat) {
    p < |s.prods| && s.prods[p].Pushing?
  }

  ghost predicate Producing(s: State, s': State, p: nat, q: Producer) {
    && p < |s.prods|
    && s'.prods == s.prods[p := q]
    && s'.head == s.head && s'.cons == s.cons && s'.out == s.out
  }

  ghost predicate PushBegin(s: State, s': State, p: nat, items: seq<Elem>) {
    && p < |s.prods| && s.prods[p].Idle?
    && Producing(s, s', p, Pushing(items, 0, [], s.finished, if items == [] then Placed else ReadTail))
    && s' == s.(prods := s'.prods)
  }

  ghost predicate PushProtect(s: State, s': State, p: nat) {
    && At(s, p) && s.prods[p].at.ReadTail?
    && Producing(s, s', p, s.prods[p].(at := Reserve(s.tail)))
    && s' == s.(prods := s'.prods)
  }

  ghost predicate PushReserve(s: State, s': State, p: nat) {
    && At(s, p) && s.prods[p].at.Reserve? && s.prods[p].at.t < |s.segs|
    && s.prods[p].k <= |s.prods[p].items|
    && var b := s.prods[p];
       var t := b.at.t;
       var i := s.segs[t].enq;
       var end := i + (|b.items| - b.k);
       && Producing(s, s', p, b.(at := if i < SEGMENT then Fill(t, i, Min(end, SEGMENT), end) else ReadNext(t)))
       && s' == s.(prods := s'.prods, segs := s.segs[t := s.segs[t].(enq := end)])
  }

  // What follows the fill of one cell: the next cell, or the end of the run.
  function AfterFill(b: Producer): (r: Stage)
    requires b.Pushing? && b.at.Fill?
  {
    if b.at.j + 1 < b.at.stop then Fill(b.at.t, b.at.j + 1, b.at.stop, b.at.end)
    else if b.k + 1 == |b.items| then Placed
    else if b.at.end <= SEGMENT then ReadTail
    else ReadNext(b.at.t)
  }

  ghost predicate PushFill(s: State, s': State, p: nat) {
    && At(s, p) && s.prods[p].at.Fill? && s.prods[p].k < |s.prods[p].items|
    && var b := s.prods[p];
       var x := Pos(b.at.t, b.at.j);
       && Producing(s, s', p, b.(k := b.k + 1, mine := b.mine + [x], at := AfterFill(b)))
       && s' == s.(prods := s'.prods, clock := s.clock + 1,
                   cells := s.cells[x := Cell(b.items[b.k], false, b.Earlier(), s.clock)])
  }

  ghost predicate PushReadNext(s: State, s': State, p: nat) {
    && At(s, p) && s.prods[p].at.ReadNext?
    && var t := s.prods[p].at.t;
       && Producing(s, s', p, s.prods[p].(at := if t + 1 < |s.segs| then MoveTail(t) else Link(t)))
       && s' == s.(prods := s'.prods)
  }

  // What is left of the push, up to a segment of it, is in the first m cells
  // of segment seg.
  ghost predicate Carries(b: Producer, c: Producer, seg: nat, m: nat, clock: nat, cells: map<Pos, Cell>,
      cells': map<Pos, Cell>)
    requires b.Pushing? && b.at.Link? && b.k + m <= |b.items|
  {
    && (forall x :: x in cells' <==> x in cells || (x.seg == seg && x.idx < m))
    && (forall x :: x in cells' && !(x.seg == seg && x.idx < m) ==> cells'[x] == cells[x])
    && (forall x :: x in cells' && x.seg == seg && x.idx < m ==> Carried(b, x, clock, cells'[x]))
    && c.Pushing? && c.items == b.items && c.before == b.before && c.k == b.k + m && c.at == MoveTail(b.at.t)
    && |c.mine| == |b.mine| + m && b.mine <= c.mine
    && (forall r :: |b.mine| <= r < |c.mine| ==> c.mine[r] == Pos(seg, r - |b.mine|))
  }

  ghost predicate Carried(b: Producer, x: Pos, clock: nat, cell: Cell)
    requires b.Pushing?
  {
    && b.k + x.idx < |b.items| && cell.val == b.items[b.k + x.idx] && !cell.taken && cell.stamp == clock
    && forall a :: a in cell.after <==> a in b.Earlier() || (a.seg == x.seg && a.idx < x.idx)
  }

  // The compare-and-swap of next: lost to another push, or the new segment,
  // with what is left of the batch in it, is linked.
  ghost predicate PushLink(s: State, s': State, p: nat) {
    && At(s, p) && s.prods[p].at.Link? && s.prods[p].k <= |s.prods[p].items|
    && var b := s.prods[p];
       var t := b.at.t;
       var m := Min(SEGMENT, |b.items| - b.k);
       if t + 1 < |s.segs| then
         && Producing(s, s', p, b.(at := MoveTail(t)))
         && s' == s.(prods := s'.prods)
       else
         && |s'.prods| == |s.prods| && Producing(s, s', p, s'.prods[p])
         && Carries(b, s'.prods[p], t + 1, m, s.clock, s.cells, s'.cells)
         && s' == s.(prods := s'.prods, clock := s.clock + 1, segs := s.segs + [Segment(0, m)], cells := s'.cells)
  }

  ghost predicate PushMoveTail(s: State, s': State, p: nat) {
    && At(s, p) && s.prods[p].at.MoveTail?
    && var b := s.prods[p];
       && Producing(s, s', p, b.(at := if b.k == |b.items| then Placed else ReadTail))
       && s' == s.(prods := s'.prods, tail := if s.tail == b.at.t then b.at.t + 1 else s.tail)
  }

  ghost predicate PushEnd(s: State, s': State, p: nat) {
    && At(s, p) && s.prods[p].at.Placed?
    && Producing(s, s', p, Idle)
    && s' == s.(prods := s'.prods, finished := s.finished + Elements(s.prods[p].mine))
  }

  // ------------------------------------------------------------------ pops

  function HeadPos(s: State): Pos
    requires s.head < |s.segs|
  {
    Pos(s.head, s.segs[s.head].deq)
  }

  // The load of a cell's state sees kFull.
  ghost predicate Full(s: State, x: Pos) {
    x in s.cells && !s.cells[x].taken
  }

  ghost predicate PopBegin(s: State, s': State) {
    && s.cons.at.Away?
    && s' == s.(cons := s.cons.(at := Top, due := s.cells.Keys))
  }

  // At the end of the head segment, with no next one: empty.
  ghost predicate PopNoNext(s: State, s': State) {
    && s.cons.at.Top? && s.head < |s.segs| && s.segs[s.head].deq >= SEGMENT
    && s.head + 1 == |s.segs|
    && s' == s.(cons := s.cons.(at := Away))
  }

  ghost predicate PopSeesNext(s: State, s': State) {
    && s.cons.at.Top? && s.head < |s.segs| && s.segs[s.head].deq >= SEGMENT
    && s.head + 1 < |s.segs|
    && s' == s.(cons := s.cons.(at := AdvanceTail))
  }

  // advance_head: the tail is moved past the segment, then the head, and the
  // segment is retired.
  ghost predicate PopAdvanceTail(s: State, s': State) {
    && s.cons.at.AdvanceTail?
    && s' == s.(cons := s.cons.(at := AdvanceHead), tail := if s.tail == s.head then s.head + 1 else s.tail)
  }

  ghost predicate PopAdvanceHead(s: State, s': State) {
    && s.cons.at.AdvanceHead?
    && s' == s.(cons := s.cons.(at := Top), head := s.head + 1)
  }

  // The head's cell was taken out of order: step over it.
  ghost predicate PopStepOver(s: State, s': State) {
    && s.cons.at.Top? && s.head < |s.segs| && s.segs[s.head].deq < SEGMENT
    && var x := HeadPos(s);
       && x in s.cells && s.cells[x].taken
       && s' == s.(segs := s.segs[s.head := s.segs[s.head].(deq := x.idx + 1)])
  }

  // No holes and the head's cell full: take it.
  ghost predicate PopInOrder(s: State, s': State) {
    && s.cons.at.Top? && s.head < |s.segs| && s.segs[s.head].deq < SEGMENT
    && s.cons.holes == []
    && var x := HeadPos(s);
       && Full(s, x)
       && s' == s.(segs := s.segs[s.head := s.segs[s.head].(deq := x.idx + 1)],
                   out := s.out + [x], cons := s.cons.(at := Away))
  }

  // The head's cell not full, or holes: look ahead. (While a stream is being
  // taken the load is repeated a few times first; a repeat changes nothing.)
  ghost predicate PopLookAhead(s: State, s': State) {
    && s.cons.at.Top? && s.head < |s.segs| && s.segs[s.head].deq < SEGMENT
    && var x := HeadPos(s);
       && (x in s.cells ==> !s.cells[x].taken)
       && (s.cons.holes == [] ==> !Full(s, x))
       && s' == s.(cons := s.cons.(at := Holes(0), walk := if s.cons.holes == [] then x else s.cons.walk))
  }

  ghost predicate PopHole(s: State, s': State) {
    && s.cons.at.Holes? && s.cons.at.k < |s.cons.holes|
    && var k := s.cons.at.k;
       s' == s.(cons := s.cons.(at := if Full(s, s.cons.holes[k]) then Look(k, 0) else Holes(k + 1)))
  }

  ghost predicate PopNoHole(s: State, s': State) {
    && s.cons.at.Holes? && s.cons.at.k == |s.cons.holes|
    && s' == s.(cons := s.cons.(at := Walk))
  }

  ghost predicate WalkCount(s: State, s': State) {
    && s.cons.at.Walk? && s.cons.walk.seg < |s.segs|
    && s' == s.(cons := s.cons.(at := Walking(s.segs[s.cons.walk.seg].enq)))
  }

  ghost predicate WalkCell(s: State, s': State) {
    && s.cons.at.Walking? && s.cons.walk.idx < Min(s.cons.at.taken, SEGMENT)
    && var x := s.cons.walk;
       s' == s.(cons := s.cons.(holes := s.cons.holes + [x], walk := Pos(x.seg, x.idx + 1),
                                at := if Full(s, x) then Look(|s.cons.holes|, 0) else s.cons.at))
  }

  ghost predicate WalkOn(s: State, s': State) {
    && s.cons.at.Walking? && s.cons.walk.idx >= Min(s.cons.at.taken, SEGMENT)
    && s.cons.at.taken > SEGMENT && s.cons.walk.seg + 1 < |s.segs|
    && s' == s.(cons := s.cons.(walk := Pos(s.cons.walk.seg + 1, 0), at := Walk))
  }

  // The walk ends without a full cell: empty.
  ghost predicate WalkEnd(s: State, s': State) {
    && s.cons.at.Walking? && s.cons.walk.idx >= Min(s.cons.at.taken, SEGMENT)
    && (s.cons.at.taken <= SEGMENT || s.cons.walk.seg + 1 >= |s.segs|)
    && s' == s.(cons := s.cons.(at := Away))
  }

  ghost predicate LookAgain(s: State, s': State) {
    && s.cons.at.Look? && s.cons.at.m < s.cons.at.k < |s.cons.holes|
    && var (k, m) := (s.cons.at.k, s.cons.at.m);
       s' == s.(cons := s.cons.(at := if Full(s, s.cons.holes[m]) then Look(m, 0) else Look(k, m + 1)))
  }

  ghost predicate LookTake(s: State, s': State) {
    && s.cons.at.Look? && s.cons.at.m == s.cons.at.k < |s.cons.holes|
    && var k := s.cons.at.k;
       var x := s.cons.holes[k];
       && x in s.cells
       && s' == s.(cons := s.cons.(holes := s.cons.holes[..k] + s.cons.holes[k + 1..], at := Away),
                   cells := s.cells[x := s.cells[x].(taken := true)], out := s.out + [x])
  }

  ghost predicate PushStep(s: State, s': State, p: nat) {
    || (exists items :: PushBegin(s, s', p, items))
    || PushProtect(s, s', p) || PushReserve(s, s', p) || PushFill(s, s', p) || PushReadNext(s, s', p)
    || PushLink(s, s', p) || PushMoveTail(s, s', p) || PushEnd(s, s', p)
  }

  ghost predicate PopStep(s: State, s': State) {
    || PopBegin(s, s') || PopNoNext(s, s') || PopSeesNext(s, s') || PopAdvanceTail(s, s')
    || PopAdvanceHead(s, s') || PopStepOver(s, s') || PopInOrder(s, s') || PopLookAhead(s, s')
    || PopHole(s, s') || PopNoHole(s, s') || WalkCount(s, s') || WalkCell(s, s') || WalkOn(s, s')
    || WalkEnd(s, s') || LookAgain(s, s') || LookTake(s, s')
  }

  ghost predicate Next(s: State, s': State) {
    PopStep(s, s') || exists p: nat :: PushStep(s, s', p)
  }

  // A pop answers empty at this step.
  ghost predicate AnswersEmpty(s: State, s': State) {
    PopNoNext(s, s') || WalkEnd(s, s')
  }

  ghost predicate IsRun(run: seq<State>) {
    && |run| > 0 && Init(run[0])
    && forall i :: 0 <= i < |run| - 1 ==> Next(run[i], run[i + 1])
  }

  // ------------------------------------------------------------- invariant

  ghost predicate SegmentsOk(s: State) {
    && s.head <= s.tail < |s.segs|
    && s.segs[s.head].deq <= SEGMENT
    && (forall i :: s.head < i < |s.segs| ==> s.segs[i].deq == 0)
    && (forall i :: 0 <= i < |s.segs| - 1 ==> s.segs[i].enq > SEGMENT)
  }

  ghost predicate CellOk(s: State, x: Pos)
    requires x in s.cells
  {
    && x.seg < |s.segs| && x.idx < SEGMENT && x.idx < s.segs[x.seg].enq
    && s.cells[x].stamp < s.clock
    && forall a :: a in s.cells[x].after ==> a in s.cells && Lt(a, x) && s.cells[a].stamp <= s.cells[x].stamp
  }

  ghost predicate CellsOk(s: State) {
    && (forall x :: x in s.cells ==> CellOk(s, x))
    && (forall x :: x in s.finished ==> x in s.cells && x.seg <= s.tail)
  }

  // Every element that must precede the push's next one lies below where
  // that one will land.
  ghost predicate Below(s: State, b: Producer, x: Pos)
    requires b.Pushing?
  {
    match b.at
    case ReadTail => x.seg <= s.tail
    case Reserve(t) => x.seg <= t
    case Fill(t, j, _, _) => Lt(x, Pos(t, j))
    case ReadNext(t) => x.seg <= t
    case Link(t) => x.seg <= t
    case MoveTail(t) => x.seg <= t + 1
    case Placed => x.seg <= s.tail
  }

  ghost predicate StageOk(s: State, b: Producer)
    requires b.Pushing?
  {
    && b.k <= |b.items|
    && match b.at
       case ReadTail => b.k < |b.items|
       case Reserve(t) => b.k < |b.items| && t <= s.tail
       case Fill(t, j, stop, end) =>
         && t <= s.tail < |s.segs| && j < stop == Min(end, SEGMENT) && stop <= s.segs[t].enq
         && end - j == |b.items| - b.k && end <= s.segs[t].enq
         && forall i :: j <= i < stop ==> Pos(t, i) !in s.cells
       case ReadNext(t) => b.k < |b.items| && t <= s.tail < |s.segs| && s.segs[t].enq > SEGMENT
       case Link(t) => b.k < |b.items| && t <= s.tail < |s.segs| && s.segs[t].enq > SEGMENT
       case MoveTail(t) => t <= s.tail && t + 1 < |s.segs|
       case Placed => b.k == |b.items|
  }

  ghost predicate ProducerOk(s: State, b: Producer) {
    b.Pushing? ==>
      && StageOk(s, b)
      && (forall x :: x in b.Earlier() ==> x in s.cells && Below(s, b, x))
      && |b.mine| == b.k && Sorted(b.mine)
      && (forall r :: 0 <= r < b.k ==> s.cells[b.mine[r]].val == b.items[r])
  }

  // Two pushes fill different cells.
  ghost predicate Apart(b: Producer, c: Producer) {
    b.Pushing? && c.Pushing? && b.at.Fill? && c.at.Fill? && b.at.t == c.at.t ==>
      b.at.stop <= c.at.j || c.at.stop <= b.at.j
  }

  ghost predicate ProducersOk(s: State) {
    && (forall p :: 0 <= p < |s.prods| ==> ProducerOk(s, s.prods[p]))
    && (forall p, q :: 0 <= p < q < |s.prods| ==> Apart(s.prods[p], s.prods[q]))
  }

  ghost predicate OutOk(s: State)
    requires s.head < |s.segs|
  {
    && (forall x :: x in s.out ==> x in s.cells)
    && (forall x :: x in s.cells ==> (x in s.out <==> s.cells[x].taken || Lt(x, HeadPos(s))))
    && (forall x: Pos :: x.idx < SEGMENT && Lt(x, HeadPos(s)) ==> x in s.out)
    && (forall i, j :: 0 <= i < j < |s.out| ==> s.out[i] != s.out[j])
    && (forall j, a :: 0 <= j < |s.out| && a in s.cells[s.out[j]].after ==> a in s.out[..j])
  }

  // The holes are, in order, exactly the untaken cells before the walk's end.
  ghost predicate HolesOk(s: State)
    requires s.head < |s.segs|
  {
    && s.cons.walk.seg < |s.segs| && s.cons.walk.idx <= SEGMENT
    && (forall x :: x in s.out ==> Lt(x, s.cons.walk) || Lt(x, HeadPos(s)))
    && Sorted(s.cons.holes)
    && (forall x :: x in s.cons.holes ==> x !in s.out && Lt(x, s.cons.walk) && x.idx < SEGMENT)
    && (forall x: Pos :: x.idx < SEGMENT && Lt(x, s.cons.walk) ==> x in s.out || x in s.cons.holes)
  }

  // Cell h was not filled when cell x was.
  ghost predicate Later(s: State, h: Pos, x: Pos)
    requires x in s.cells
  {
    h in s.cells ==> s.cells[x].stamp < s.cells[h].stamp
  }

  ghost predicate PlaceOk(s: State)
    requires s.head < |s.segs|
  {
    var c := s.cons;
    match c.at
    case Away => true
    case Top => true
    case AdvanceTail => s.segs[s.head].deq == SEGMENT && s.head + 1 < |s.segs|
    case AdvanceHead => s.segs[s.head].deq == SEGMENT && s.head + 1 < |s.segs| && s.head < s.tail
    case Holes(k) =>
      && k <= |c.holes| && !Lt(c.walk, HeadPos(s))
      && (forall x :: x in c.due ==> x in s.out || x in c.holes[k..] || !Lt(x, c.walk))
    case Walk =>
      && !Lt(c.walk, HeadPos(s))
      && (forall x :: x in c.due ==> x in s.out || !Lt(x, c.walk))
    case Walking(taken) =>
      && !Lt(c.walk, HeadPos(s)) && c.walk.seg < |s.segs| && taken <= s.segs[c.walk.seg].enq
      && (forall x :: x in c.due ==> x in s.out || !Lt(x, c.walk))
      && (forall x :: x in c.due && x !in s.out && x.seg == c.walk.seg ==> x.idx < taken)
      && (forall x :: x in c.due && x !in s.out && x.seg > c.walk.seg ==> taken > SEGMENT)
    case Look(k, m) =>
      && m <= k < |c.holes| && c.holes[k] in s.cells
      && (forall i :: 0 <= i < m ==> Later(s, c.holes[i], c.holes[k]))
  }

  ghost predicate PushInv(s: State) {
    SegmentsOk(s) && CellsOk(s) && ProducersOk(s)
  }

  ghost predicate PopInv(s: State) {
    && SegmentsOk(s) && CellsOk(s)
    && OutOk(s) && HolesOk(s) && PlaceOk(s)
    && s.cons.due <= s.cells.Keys
  }

  ghost predicate Inv(s: State) {
    PushInv(s) && PopInv(s)
  }

  // ------------------------------------------------------- steps of pushes

  // What a step of a producer does to the rest: counts and filled cells grow.
  ghost predicate Grows(s: State, s': State) {
    && |s.segs| <= |s'.segs|
    && (forall i :: 0 <= i < |s.segs| ==> s.segs[i].enq <= s'.segs[i].enq && s'.segs[i].deq == s.segs[i].deq)
    && s.tail <= s'.tail && s.clock <= s'.clock
    && (forall x :: x in s.cells ==> x in s'.cells && s'.cells[x] == s.cells[x])
    && (forall x :: x in s'.cells && x !in s.cells ==> !s'.cells[x].taken && s.clock <= s'.cells[x].stamp)
    && s'.head == s.head && s'.cons == s.cons && s'.out == s.out && s.finished <= s'.finished
  }

  // The consumer's part is kept by every step of a producer.
  lemma ConsumerFrame(s: State, s': State)
    requires PopInv(s) && Grows(s, s') && SegmentsOk(s') && CellsOk(s')
    ensures PopInv(s')
  {
    assert forall x :: x in s'.cells ==> CellOk(s', x);
    OutFrame(s, s');
    HolesFrame(s, s');
    PlaceFrame(s, s');
  }

  lemma HolesFrame(s: State, s': State)
    requires s.head < |s.segs| && HolesOk(s) && Grows(s, s')
    ensures HolesOk(s')
  {
    assert HeadPos(s') == HeadPos(s);
  }

  lemma OutFrame(s: State, s': State)
    requires s.head < |s.segs| && OutOk(s) && Grows(s, s')
    requires forall x :: x in s'.cells ==> x.idx < SEGMENT
    ensures OutOk(s')
  {
    assert forall x :: x in s'.cells && x in s'.out ==> s'.cells[x] == s.cells[x];
  }

  lemma PlaceFrame(s: State, s': State)
    requires s.head < |s.segs| && PlaceOk(s) && CellsOk(s) && Grows(s, s')
    ensures PlaceOk(s')
  {}

  lemma CellsFrame(s: State, s': State)
    requires CellsOk(s) && Grows(s, s') && s'.tail < |s'.segs|
    requires forall x :: x in s'.cells && x !in s.cells ==> CellOk(s', x)
    requires forall x :: x in s'.finished ==> x in s'.cells && x.seg <= s'.tail
    ensures CellsOk(s')
  {
    forall x | x in s'.cells ensures CellOk(s', x) {
      if x in s.cells { assert CellOk(s, x); }
    }
  }

  // x is a cell b has reserved and not yet filled.
  ghost predicate Reserved(b: Producer, x: Pos) {
    b.Pushing? && b.at.Fill? && b.at.t == x.seg && b.at.j <= x.idx < b.at.stop
  }

  // None of b's reserved cells was filled.
  ghost predicate Untouched(s: State, s': State, b: Producer) {
    forall x :: x in s'.cells && x !in s.cells ==> !Reserved(b, x)
  }

  lemma OtherProducer(s: State, s': State, b: Producer)
    requires ProducerOk(s, b) && Grows(s, s') && SegmentsOk(s') && Untouched(s, s', b)
    ensures ProducerOk(s', b)
  {
    if b.Pushing? && b.at.Fill? {
      forall i | b.at.j <= i < b.at.stop ensures Pos(b.at.t, i) !in s'.cells {
        assert Reserved(b, Pos(b.at.t, i));
      }
    }
  }

  lemma PushKeeps(s: State, s': State, p: nat, b: Producer)
    requires PushInv(s) && Grows(s, s') && SegmentsOk(s') && CellsOk(s')
    requires p < |s.prods| && s'.prods == s.prods[p := b]
    requires ProducerOk(s', b)
    requires forall q :: 0 <= q < |s.prods| && q != p ==> Apart(b, s.prods[q])
    requires forall q :: 0 <= q < |s.prods| && q != p ==> Untouched(s, s', s.prods[q])
    ensures PushInv(s')
  {
    forall q | 0 <= q < |s.prods| && q != p ensures ProducerOk(s', s.prods[q]) {
      OtherProducer(s, s', s.prods[q]);
    }
    forall q, r | 0 <= q < r < |s'.prods| ensures Apart(s'.prods[q], s'.prods[r]) {}
  }

  lemma PushBeginKeeps(s: State, s': State, p: nat, items: seq<Elem>)
    requires PushInv(s) && PushBegin(s, s', p, items)
    ensures PushInv(s') && Grows(s, s')
  {
    CellsFrame(s, s');
    PushKeeps(s, s', p, s'.prods[p]);
  }

  lemma PushProtectKeeps(s: State, s': State, p: nat)
    requires PushInv(s) && PushProtect(s, s', p)
    ensures PushInv(s') && Grows(s, s')
  {
    CellsFrame(s, s');
    PushKeeps(s, s', p, s'.prods[p]);
  }

  lemma PushReserveKeeps(s: State, s': State, p: nat)
    requires PushInv(s) && PushReserve(s, s', p)
    ensures PushInv(s') && Grows(s, s')
  {
    CellsFrame(s, s');
    assert ProducerOk(s, s.prods[p]);
    assert StageOk(s', s'.prods[p]) && ProducerOk(s', s'.prods[p]);
    forall q | 0 <= q < |s.prods| && q != p ensures Apart(s'.prods[p], s.prods[q]) {
      assert ProducerOk(s, s.prods[q]);
    }
    PushKeeps(s, s', p, s'.prods[p]);
  }

  lemma PushFillCells(s: State, s': State, p: nat)
    requires SegmentsOk(s) && CellsOk(s) && At(s, p) && ProducerOk(s, s.prods[p]) && PushFill(s, s', p)
    ensures Grows(s, s') && SegmentsOk(s') && CellsOk(s')
  {
    var b := s.prods[p];
    assert CellOk(s', Pos(b.at.t, b.at.j));
    CellsFrame(s, s');
  }

  lemma PushFillOwn(s: State, s': State, p: nat)
    requires SegmentsOk(s) && At(s, p) && ProducerOk(s, s.prods[p]) && PushFill(s, s', p)
    ensures ProducerOk(s', s'.prods[p])
  {
    var b := s.prods[p];
    assert s'.prods[p].Earlier() == b.Earlier() + {Pos(b.at.t, b.at.j)};
  }

  lemma PushFillKeeps(s: State, s': State, p: nat)
    requires PushInv(s) && PushFill(s, s', p)
    ensures PushInv(s') && Grows(s, s')
  {
    assert ProducerOk(s, s.prods[p]);
    PushFillCells(s, s', p);
    PushFillOwn(s, s', p);
    forall q | 0 <= q < |s.prods| && q != p ensures Apart(s'.prods[p], s.prods[q]) && Untouched(s, s', s.prods[q]) {
      assert if q < p then Apart(s.prods[q], s.prods[p]) else Apart(s.prods[p], s.prods[q]);
    }
    PushKeeps(s, s', p, s'.prods[p]);
  }

  lemma PushReadNextKeeps(s: State, s': State, p: nat)
    requires PushInv(s) && PushReadNext(s, s', p)
    ensures PushInv(s') && Grows(s, s')
  {
    CellsFrame(s, s');
    assert ProducerOk(s, s.prods[p]);
    assert StageOk(s', s'.prods[p]) && ProducerOk(s', s'.prods[p]);
    PushKeeps(s, s', p, s'.prods[p]);
  }

  lemma PushLinkGrows(s: State, s': State, p: nat)
    requires SegmentsOk(s) && CellsOk(s) && At(s, p) && StageOk(s, s.prods[p]) && PushLink(s, s', p)
    ensures Grows(s, s') && SegmentsOk(s') && s'.finished == s.finished && s'.tail == s.tail
    ensures forall x :: x in s'.cells && x !in s.cells ==> x.seg == |s.segs|
  {
    assert forall x :: x in s.cells ==> CellOk(s, x);
  }

  lemma PushLinkCells(s: State, s': State, p: nat)
    requires SegmentsOk(s) && CellsOk(s) && At(s, p) && ProducerOk(s, s.prods[p]) && PushLink(s, s', p)
    ensures Grows(s, s') && SegmentsOk(s') && CellsOk(s')
    ensures forall x :: x in s'.cells && x !in s.cells ==> x.seg == |s.segs|
  {
    PushLinkGrows(s, s', p);
    var b := s.prods[p];
    if b.at.t + 1 == |s.segs| {
      var m := Min(SEGMENT, |b.items| - b.k);
      assert Carries(b, s'.prods[p], |s.segs|, m, s.clock, s.cells, s'.cells);
      forall x | x in s'.cells && x !in s.cells ensures CellOk(s', x) {
        FreshCellOk(s, s', b, m, x);
      }
    }
    CellsFrame(s, s');
  }

  lemma FreshCellOk(s: State, s': State, b: Producer, m: nat, x: Pos)
    requires CellsOk(s) && b.Pushing? && b.at.Link? && b.at.t + 1 == |s.segs| && b.k + m <= |b.items| && m <= SEGMENT
    requires forall a :: a in b.Earlier() ==> a in s.cells && a.seg <= b.at.t
    requires s'.segs == s.segs + [Segment(0, m)] && s'.clock == s.clock + 1
    requires exists c :: Carries(b, c, |s.segs|, m, s.clock, s.cells, s'.cells)
    requires x.seg == |s.segs| && x.idx < m
    ensures x in s'.cells && CellOk(s', x)
  {
    assert Carried(b, x, s.clock, s'.cells[x]);
    forall a | a in s'.cells[x].after ensures a in s'.cells && s'.cells[a].stamp <= s.clock {
      if a in b.Earlier() { assert CellOk(s, a); }
    }
  }

  lemma LinkedAt(b: Producer, c: Producer, m: nat, clock: nat, cells: map<Pos, Cell>, cells': map<Pos, Cell>, r: nat)
    requires b.Pushing? && b.at.Link? && b.k == |b.mine| && b.k + m <= |b.items|
    requires forall x :: x in b.mine ==> x in cells && x.seg <= b.at.t
    requires forall r :: 0 <= r < b.k ==> cells[b.mine[r]].val == b.items[r]
    requires Carries(b, c, b.at.t + 1, m, clock, cells, cells') && r < |c.mine|
    ensures c.mine[r] in cells' && cells'[c.mine[r]].val == c.items[r] && c.mine[r].seg <= b.at.t + 1
    ensures if r < b.k then c.mine[r] == b.mine[r] && b.mine[r] in b.mine else c.mine[r] == Pos(b.at.t + 1, r - b.k)
  {
    if r < b.k { assert b.mine[r] in b.mine; } else { assert Carried(b, c.mine[r], clock, cells'[c.mine[r]]); }
  }

  lemma LinkedMine(b: Producer, c: Producer, m: nat, clock: nat, cells: map<Pos, Cell>, cells': map<Pos, Cell>)
    requires b.Pushing? && b.at.Link? && b.k == |b.mine| && Sorted(b.mine) && b.k + m <= |b.items|
    requires forall x :: x in b.mine ==> x in cells && x.seg <= b.at.t
    requires forall r :: 0 <= r < b.k ==> cells[b.mine[r]].val == b.items[r]
    requires Carries(b, c, b.at.t + 1, m, clock, cells, cells')
    ensures |c.mine| == c.k && Sorted(c.mine)
    ensures forall r :: 0 <= r < |c.mine| ==>
              c.mine[r] in cells' && c.mine[r].seg <= b.at.t + 1 && cells'[c.mine[r]].val == c.items[r]
  {
    forall r | 0 <= r < |c.mine|
      ensures c.mine[r] in cells' && c.mine[r].seg <= b.at.t + 1 && cells'[c.mine[r]].val == c.items[r]
    {
      LinkedAt(b, c, m, clock, cells, cells', r);
    }
    forall q, r | 0 <= q < r < |c.mine| ensures Lt(c.mine[q], c.mine[r]) {
      LinkedAt(b, c, m, clock, cells, cells', q);
      LinkedAt(b, c, m, clock, cells, cells', r);
    }
  }

  lemma PushLinkOwn(s: State, s': State, p: nat)
    requires SegmentsOk(s) && At(s, p) && ProducerOk(s, s.prods[p]) && PushLink(s, s', p)
    ensures ProducerOk(s', s'.prods[p])
  {
    var b, c := s.prods[p], s'.prods[p];
    assert StageOk(s', c);
    if b.at.t + 1 >= |s.segs| {
      assert forall x :: x in b.mine ==> x in b.Earlier();
      LinkedMine(b, c, Min(SEGMENT, |b.items| - b.k), s.clock, s.cells, s'.cells);
      forall x | x in c.Earlier() ensures x in s'.cells && Below(s', c, x) {
        if x !in c.mine { assert x in b.Earlier(); }
      }
    }
  }

  lemma PushLinkKeeps(s: State, s': State, p: nat)
    requires PushInv(s) && PushLink(s, s', p)
    ensures PushInv(s') && Grows(s, s')
  {
    assert ProducerOk(s, s.prods[p]);
    PushLinkCells(s, s', p);
    PushLinkOwn(s, s', p);
    forall q | 0 <= q < |s.prods| && q != p ensures Untouched(s, s', s.prods[q]) {
      assert ProducerOk(s, s.prods[q]);
    }
    PushKeeps(s, s', p, s'.prods[p]);
  }

  lemma PushMoveTailKeeps(s: State, s': State, p: nat)
    requires PushInv(s) && PushMoveTail(s, s', p)
    ensures PushInv(s') && Grows(s, s')
  {
    assert ProducerOk(s, s.prods[p]);
    CellsFrame(s, s');
    PushKeeps(s, s', p, s'.prods[p]);
  }

  lemma PushEndKeeps(s: State, s': State, p: nat)
    requires PushInv(s) && PushEnd(s, s', p)
    ensures PushInv(s') && Grows(s, s')
  {
    assert ProducerOk(s, s.prods[p]);
    CellsFrame(s, s');
    PushKeeps(s, s', p, s'.prods[p]);
  }

  // --------------------------------------------------------- steps of pops

  // A step of the consumer changes nothing the producers rely on.
  ghost predicate Leaves(s: State, s': State) {
    && |s'.segs| == |s.segs| && (forall i :: 0 <= i < |s.segs| ==> s'.segs[i].enq == s.segs[i].enq)
    && s'.cells.Keys == s.cells.Keys && s'.clock == s.clock && s'.finished == s.finished
    && (forall x :: x in s.cells ==>
          s'.cells[x].stamp == s.cells[x].stamp && s'.cells[x].after == s.cells[x].after
            && s'.cells[x].val == s.cells[x].val)
    && s.tail <= s'.tail && s'.prods == s.prods && s.out <= s'.out
  }

  lemma ProducersFrame(s: State, s': State)
    requires CellsOk(s) && ProducersOk(s) && SegmentsOk(s') && Leaves(s, s')
    ensures ProducersOk(s')
  {
    forall p | 0 <= p < |s.prods| ensures ProducerOk(s', s.prods[p]) {
      assert ProducerOk(s, s.prods[p]);
    }
  }

  lemma LeavesCells(s: State, s': State)
    requires CellsOk(s) && SegmentsOk(s') && Leaves(s, s')
    ensures CellsOk(s')
  {
    forall x | x in s'.cells ensures CellOk(s', x) {
      assert CellOk(s, x);
    }
  }

  // A step that moves the consumer on and does nothing else.
  lemma MovesOn(s: State, s': State)
    requires PopInv(s) && s' == s.(cons := s'.cons) && s'.cons.holes == s.cons.holes && s'.cons.walk == s.cons.walk
    requires PlaceOk(s') && s'.cons.due <= s.cells.Keys
    ensures PopInv(s') && Leaves(s, s')
  {
    LeavesCells(s, s');
    assert HeadPos(s') == HeadPos(s) && OutOk(s');
  }

  lemma PopBeginKeeps(s: State, s': State)
    requires PopInv(s) && PopBegin(s, s')
    ensures PopInv(s') && Leaves(s, s')
  {
    assert PlaceOk(s');
    MovesOn(s, s');
  }

  lemma PopNoNextKeeps(s: State, s': State)
    requires PopInv(s) && PopNoNext(s, s')
    ensures PopInv(s') && Leaves(s, s')
  {
    assert PlaceOk(s');
    MovesOn(s, s');
  }

  lemma PopSeesNextKeeps(s: State, s': State)
    requires PopInv(s) && PopSeesNext(s, s')
    ensures PopInv(s') && Leaves(s, s')
  {
    assert PlaceOk(s');
    MovesOn(s, s');
  }

  lemma PopAdvanceTailKeeps(s: State, s': State)
    requires PopInv(s) && PopAdvanceTail(s, s')
    ensures PopInv(s') && Leaves(s, s')
  {
    LeavesCells(s, s');
  }

  lemma PopAdvanceHeadKeeps(s: State, s': State)
    requires PopInv(s) && PopAdvanceHead(s, s')
    ensures PopInv(s') && Leaves(s, s')
  {
    LeavesCells(s, s');
    assert forall y: Pos :: y.idx < SEGMENT ==> (Lt(y, HeadPos(s')) <==> Lt(y, HeadPos(s)));
    assert OutOk(s') && HolesOk(s');
  }

  lemma PopStepOverKeeps(s: State, s': State)
    requires PopInv(s) && PopStepOver(s, s')
    ensures PopInv(s') && Leaves(s, s')
  {
    LeavesCells(s, s');
    assert forall y: Pos :: y.idx < SEGMENT ==> (Lt(y, HeadPos(s')) <==> Lt(y, HeadPos(s)) || y == HeadPos(s));
    assert CellOk(s, HeadPos(s));
    assert OutOk(s');
    assert HolesOk(s');
  }

  // Taking cell x next keeps the popped order.
  lemma OutGrows(s: State, s': State, x: Pos)
    requires s.head < |s.segs| && s'.head < |s'.segs| && OutOk(s)
    requires x in s.cells && x !in s.out && s'.out == s.out + [x]
    requires s'.cells.Keys == s.cells.Keys
    requires forall y :: y in s.cells ==> s'.cells[y].after == s.cells[y].after
    requires forall a :: a in s.cells[x].after ==> a in s.out
    requires forall y :: y in s.cells ==>
               (s'.cells[y].taken || Lt(y, HeadPos(s')) <==> s.cells[y].taken || Lt(y, HeadPos(s)) || y == x)
    requires forall y: Pos :: y.idx < SEGMENT && Lt(y, HeadPos(s')) ==> Lt(y, HeadPos(s)) || y == x
    ensures OutOk(s')
  {
    forall j, a | 0 <= j < |s'.out| && a in s'.cells[s'.out[j]].after ensures a in s'.out[..j] {
      if j < |s.out| {
        assert s'.out[..j] == s.out[..j];
      } else {
        assert s'.out[..j] == s.out;
      }
    }
  }

  lemma PopInOrderKeeps(s: State, s': State)
    requires PopInv(s) && PopInOrder(s, s')
    ensures PopInv(s') && Leaves(s, s')
  {
    LeavesCells(s, s');
    var x := HeadPos(s);
    assert CellOk(s, x);
    assert forall y: Pos :: y.idx < SEGMENT ==> (Lt(y, HeadPos(s')) <==> Lt(y, HeadPos(s)) || y == x);
    OutGrows(s, s', x);
    assert HolesOk(s');
  }

  lemma PopLookAheadKeeps(s: State, s': State)
    requires PopInv(s) && PopLookAhead(s, s')
    ensures PopInv(s') && Leaves(s, s')
  {
    LeavesCells(s, s');
    assert HeadPos(s) !in s.out && HeadPos(s') == HeadPos(s);
    assert OutOk(s');
    if s.cons.holes != [] { assert !Lt(s.cons.holes[0], HeadPos(s)); }
    assert HolesOk(s');
  }

  lemma PopHoleKeeps(s: State, s': State)
    requires PopInv(s) && PopHole(s, s')
    ensures PopInv(s') && Leaves(s, s')
  {
    assert PlaceOk(s');
    MovesOn(s, s');
  }

  lemma PopNoHoleKeeps(s: State, s': State)
    requires PopInv(s) && PopNoHole(s, s')
    ensures PopInv(s') && Leaves(s, s')
  {
    assert PlaceOk(s');
    MovesOn(s, s');
  }

  lemma WalkCountKeeps(s: State, s': State)
    requires PopInv(s) && WalkCount(s, s')
    ensures PopInv(s') && Leaves(s, s')
  {
    assert PlaceOk(s');
    MovesOn(s, s');
  }

  lemma WalkCellKeeps(s: State, s': State)
    requires PopInv(s) && WalkCell(s, s')
    ensures PopInv(s') && Leaves(s, s')
  {
    LeavesCells(s, s');
    assert s.cons.walk !in s.out && HeadPos(s') == HeadPos(s);
    assert OutOk(s');
    WalkCellHoles(s, s');
    WalkCellPlace(s, s');
  }

  lemma WalkCellPlace(s: State, s': State)
    requires s.head < |s.segs| && PlaceOk(s) && OutOk(s) && s.cons.due <= s.cells.Keys && WalkCell(s, s')
    ensures PlaceOk(s')
  {
    assert forall y :: Lt(y, s'.cons.walk) <==> Lt(y, s.cons.walk) || y == s.cons.walk;
  }

  lemma WalkCellHoles(s: State, s': State)
    requires s.head < |s.segs| && HolesOk(s) && WalkCell(s, s') && s.cons.walk !in s.out
    ensures HolesOk(s')
  {
    var x := s.cons.walk;
    assert forall y :: y in s'.cons.holes <==> y in s.cons.holes || y == x;
    assert forall y :: Lt(y, s'.cons.walk) <==> Lt(y, x) || y == x;
    assert forall i :: 0 <= i < |s.cons.holes| ==> s.cons.holes[i] in s.cons.holes;
  }

  lemma WalkOnKeeps(s: State, s': State)
    requires PopInv(s) && WalkOn(s, s')
    ensures PopInv(s') && Leaves(s, s')
  {
    LeavesCells(s, s');
    assert HeadPos(s') == HeadPos(s) && OutOk(s');
    assert forall x :: x in s.cells ==> CellOk(s, x);
    assert HolesOk(s');
  }

  lemma WalkEndKeeps(s: State, s': State)
    requires PopInv(s) && WalkEnd(s, s')
    ensures PopInv(s') && Leaves(s, s')
  {
    assert PlaceOk(s');
    MovesOn(s, s');
  }

  lemma LookAgainKeeps(s: State, s': State)
    requires PopInv(s) && LookAgain(s, s')
    ensures PopInv(s') && Leaves(s, s')
  {
    assert PlaceOk(s');
    MovesOn(s, s');
  }

  // At the end of the looks, every element that must precede the earliest
  // full cell has been popped.
  lemma EarliestFull(s: State)
    requires PopInv(s) && s.cons.at.Look? && s.cons.at.m == s.cons.at.k
    ensures forall a :: a in s.cells[s.cons.holes[s.cons.at.k]].after ==> a in s.out
  {
    var k := s.cons.at.k;
    var x := s.cons.holes[k];
    assert CellOk(s, x);
    forall a | a in s.cells[x].after ensures a in s.out {
      assert CellOk(s, a);
      forall i | 0 <= i < |s.cons.holes| ensures s.cons.holes[i] != a {
        if i < k { assert Later(s, s.cons.holes[i], x); }
      }
    }
  }

  lemma Erase(h: seq<Pos>, k: nat)
    requires Sorted(h) && k < |h|
    ensures Sorted(h[..k] + h[k + 1..])
    ensures forall x :: x in h[..k] + h[k + 1..] <==> x in h && x != h[k]
  {
    var e := h[..k] + h[k + 1..];
    forall x | x in h && x != h[k] ensures x in e {
      var i :| 0 <= i < |h| && h[i] == x;
      assert x == e[if i < k then i else i - 1];
    }
  }

  lemma LookTakeHoles(s: State, s': State)
    requires s.head < |s.segs| && HolesOk(s) && LookTake(s, s')
    ensures HolesOk(s')
  {
    Erase(s.cons.holes, s.cons.at.k);
  }

  lemma LookTakeKeeps(s: State, s': State)
    requires PopInv(s) && LookTake(s, s')
    ensures PopInv(s') && Leaves(s, s')
  {
    LeavesCells(s, s');
    EarliestFull(s);
    LookTakeHoles(s, s');
    assert HeadPos(s') == HeadPos(s);
    OutGrows(s, s', s.cons.holes[s.cons.at.k]);
  }

  // ------------------------------------------------------------ every run

  lemma InitHolds(s: State)
    requires Init(s)
    ensures Inv(s)
  {}

  lemma PushStepKeeps(s: State, s': State, p: nat)
    requires Inv(s) && PushStep(s, s', p)
    ensures Inv(s') && Grows(s, s')
  {
    if items :| PushBegin(s, s', p, items) { PushBeginKeeps(s, s', p, items); }
    else if PushProtect(s, s', p) { PushProtectKeeps(s, s', p); }
    else if PushReserve(s, s', p) { PushReserveKeeps(s, s', p); }
    else if PushFill(s, s', p) { PushFillKeeps(s, s', p); }
    else if PushReadNext(s, s', p) { PushReadNextKeeps(s, s', p); }
    else if PushLink(s, s', p) { PushLinkKeeps(s, s', p); }
    else if PushMoveTail(s, s', p) { PushMoveTailKeeps(s, s', p); }
    else { PushEndKeeps(s, s', p); }
    ConsumerFrame(s, s');
  }

  lemma PopStepKeeps(s: State, s': State)
    requires Inv(s) && PopStep(s, s')
    ensures Inv(s') && Leaves(s, s')
  {
    if PopBegin(s, s') { PopBeginKeeps(s, s'); }
    else if PopNoNext(s, s') { PopNoNextKeeps(s, s'); }
    else if PopSeesNext(s, s') { PopSeesNextKeeps(s, s'); }
    else if PopAdvanceTail(s, s') { PopAdvanceTailKeeps(s, s'); }
    else if PopAdvanceHead(s, s') { PopAdvanceHeadKeeps(s, s'); }
    else if PopStepOver(s, s') { PopStepOverKeeps(s, s'); }
    else if PopInOrder(s, s') { PopInOrderKeeps(s, s'); }
    else if PopLookAhead(s, s') { PopLookAheadKeeps(s, s'); }
    else if PopHole(s, s') { PopHoleKeeps(s, s'); }
    else if PopNoHole(s, s') { PopNoHoleKeeps(s, s'); }
    else if WalkCount(s, s') { WalkCountKeeps(s, s'); }
    else if WalkCell(s, s') { WalkCellKeeps(s, s'); }
    else if WalkOn(s, s') { WalkOnKeeps(s, s'); }
    else if WalkEnd(s, s') { WalkEndKeeps(s, s'); }
    else if LookAgain(s, s') { LookAgainKeeps(s, s'); }
    else { LookTakeKeeps(s, s'); }
    ProducersFrame(s, s');
  }

  lemma {:induction false} RunHolds(run: seq<State>, i: nat)
    requires IsRun(run) && i < |run|
    ensures Inv(run[i])
  {
    if i == 0 {
      InitHolds(run[0]);
    } else {
      RunHolds(run, i - 1);
      assert Next(run[i - 1], run[i]);
      if PopStep(run[i - 1], run[i]) {
        PopStepKeeps(run[i - 1], run[i]);
      } else {
        var p: nat :| PushStep(run[i - 1], run[i], p);
        PushStepKeeps(run[i - 1], run[i], p);
      }
    }
  }

  // What is filled, popped and finished stays so.
  ghost predicate Extends(s: State, s': State) {
    && s.out <= s'.out && s.finished <= s'.finished
    && forall x :: x in s.cells ==>
         x in s'.cells && s'.cells[x].after == s.cells[x].after && s'.cells[x].val == s.cells[x].val
  }

  lemma StepExtends(s: State, s': State)
    requires Inv(s) && Next(s, s')
    ensures Inv(s') && Extends(s, s')
  {
    if PopStep(s, s') {
      PopStepKeeps(s, s');
    } else {
      var p: nat :| PushStep(s, s', p);
      PushStepKeeps(s, s', p);
    }
  }

  lemma ExtendsOn(s: State, s': State, t: State)
    requires Extends(s, s') && Extends(s', t)
    ensures Extends(s, t)
  {}

  ghost predicate ExtendsAt(run: seq<State>, i: nat)
    requires i + 1 < |run|
  {
    Extends(run[i], run[i + 1])
  }

  lemma {:induction false} ExtendsFrom(run: seq<State>, i: nat, n: nat)
    requires i <= n < |run| && forall k: nat :: k < |run| - 1 ==> ExtendsAt(run, k)
    ensures Extends(run[i], run[n])
    decreases n
  {
    if i < n {
      ExtendsFrom(run, i, n - 1);
      assert ExtendsAt(run, n - 1);
      ExtendsOn(run[i], run[n - 1], run[n]);
    }
  }

  lemma RunExtends(run: seq<State>, i: nat, n: nat)
    requires IsRun(run) && i <= n < |run|
    ensures Extends(run[i], run[n])
  {
    forall k: nat | k < |run| - 1 ensures ExtendsAt(run, k) {
      RunHolds(run, k);
      StepExtends(run[k], run[k + 1]);
    }
    ExtendsFrom(run, i, n);
  }

  // ------------------------------------------------------- what is promised

  // What the history of a push records: each of its elements must follow
  // those of the pushes that had returned when it began, and its own earlier
  // ones.
  ghost predicate Ordered(s: State, b: Producer) {
    b.Pushing? ==>
      forall t :: 0 <= t < |b.mine| ==>
        && b.mine[t] in s.cells && b.before <= s.cells[b.mine[t]].after
        && forall r :: 0 <= r < t ==> b.mine[r] in s.cells[b.mine[t]].after
  }

  // How a step of its own moves a producer's history.
  ghost predicate Moves(s: State, b: Producer, c: Producer) {
    && (b.Pushing? && c.Pushing? ==> c.before == b.before && b.mine <= c.mine)
    && (b.Idle? && c.Pushing? ==> c.before == s.finished && c.mine == [])
  }

  lemma OwnStep(s: State, s': State, p: nat)
    requires PushStep(s, s', p) && p < |s.prods| && Ordered(s, s.prods[p])
    requires forall x :: x in s.cells ==> x in s'.cells && s'.cells[x].after == s.cells[x].after
    ensures |s'.prods| == |s.prods| && (forall q :: 0 <= q < |s.prods| && q != p ==> s'.prods[q] == s.prods[q])
    ensures Moves(s, s.prods[p], s'.prods[p]) && Ordered(s', s'.prods[p])
  {
    if PushLink(s, s', p) && s.prods[p].at.t + 1 >= |s.segs| {
      LinkOrdered(s, s', p);
    }
  }

  lemma OrderedKeeps(s: State, s': State, p: nat)
    requires Inv(s) && Next(s, s') && p < |s.prods| && Ordered(s, s.prods[p])
    ensures |s'.prods| == |s.prods|
    ensures Moves(s, s.prods[p], s'.prods[p]) && Ordered(s', s'.prods[p])
  {
    StepExtends(s, s');
    if PopStep(s, s') {
      PopStepKeeps(s, s');
    } else {
      var q: nat :| PushStep(s, s', q);
      if q == p {
        OwnStep(s, s', p);
      } else {
        OtherStep(s, s', q);
      }
    }
  }

  lemma OtherStep(s: State, s': State, q: nat)
    requires PushStep(s, s', q)
    ensures q < |s.prods| == |s'.prods| && (forall p :: 0 <= p < |s.prods| && p != q ==> s'.prods[p] == s.prods[p])
  {}

  lemma LinkOrdered(s: State, s': State, p: nat)
    requires At(s, p) && PushLink(s, s', p) && s.prods[p].at.t + 1 >= |s.segs| && Ordered(s, s.prods[p])
    requires forall x :: x in s.cells ==> x in s'.cells && s'.cells[x].after == s.cells[x].after
    ensures Ordered(s', s'.prods[p])
  {
    var b, c := s.prods[p], s'.prods[p];
    forall i | |b.mine| <= i < |c.mine|
      ensures c.mine[i] in s'.cells && Carried(b, c.mine[i], s.clock, s'.cells[c.mine[i]])
    {
      assert c.mine[i] == Pos(b.at.t + 1, i - |b.mine|);
    }
    forall i, r | 0 <= r < i < |c.mine| ensures c.mine[r] in s'.cells[c.mine[i]].after {
      if r < |b.mine| && |b.mine| <= i { assert c.mine[r] in b.mine; }
    }
  }

  // The push that producer p began at step b is still going at step f.
  ghost predicate SamePush(run: seq<State>, p: nat, b: nat, f: nat) {
    && b < f < |run| && p < |run[b].prods| && run[b].prods[p].Idle?
    && forall i :: b < i <= f ==> p < |run[i].prods| && run[i].prods[p].Pushing?
  }

  lemma {:induction false} PushHistory(run: seq<State>, p: nat, f: nat)
    requires IsRun(run) && f < |run| && p < |run[0].prods|
    ensures |run[f].prods| == |run[0].prods| && Ordered(run[f], run[f].prods[p])
    ensures f > 0 ==> p < |run[f - 1].prods| && Moves(run[f - 1], run[f - 1].prods[p], run[f].prods[p])
  {
    if f > 0 {
      PushHistory(run, p, f - 1);
      RunHolds(run, f - 1);
      OrderedKeeps(run[f - 1], run[f], p);
    }
  }

  ghost predicate MovesAt(run: seq<State>, p: nat, i: nat)
    requires 0 < i < |run|
  {
    p < |run[i - 1].prods| && p < |run[i].prods| && Moves(run[i - 1], run[i - 1].prods[p], run[i].prods[p])
  }

  lemma {:induction false} BeforeStays(run: seq<State>, p: nat, b: nat, f: nat)
    requires SamePush(run, p, b, f) && forall i :: b < i <= f ==> MovesAt(run, p, i)
    ensures run[f].prods[p].before == run[b].finished
  {
    assert MovesAt(run, p, f);
    if f > b + 1 { BeforeStays(run, p, b, f - 1); }
  }

  lemma BeganAfter(run: seq<State>, p: nat, b: nat, f: nat)
    requires IsRun(run) && p < |run[0].prods| && SamePush(run, p, b, f)
    ensures run[f].prods[p].before == run[b].finished
  {
    forall i | b < i <= f ensures MovesAt(run, p, i) {
      PushHistory(run, p, i);
    }
    BeforeStays(run, p, b, f);
  }

  // x was popped, and before y.
  ghost predicate PoppedBefore(s: State, x: Pos, y: Pos) {
    exists i, j :: 0 <= i < j < |s.out| && s.out[i] == x && s.out[j] == y
  }

  lemma PoppedAfter(run: seq<State>, f: nat, n: nat, x: Pos, y: Pos)
    requires IsRun(run) && f <= n < |run|
    requires y in run[f].cells && x in run[f].cells[y].after && y in run[n].out
    ensures PoppedBefore(run[n], x, y)
  {
    RunExtends(run, f, n);
    RunHolds(run, n);
    var s := run[n];
    var j :| 0 <= j < |s.out| && s.out[j] == y;
    assert x in s.out[..j];
    var i :| 0 <= i < j && s.out[i] == x;
  }

  /** In every run: an element whose push had returned before another push
      began is popped before every element of that push. */
  lemma RealTimeOrder(run: seq<State>, p: nat, b: nat, f: nat, n: nat, x: Pos, y: Pos)
    requires IsRun(run) && p < |run[0].prods|
    requires SamePush(run, p, b, f) && f <= n < |run|
    requires x in run[b].finished
    requires y in run[f].prods[p].mine && y in run[n].out
    ensures PoppedBefore(run[n], x, y)
  {
    BeganAfter(run, p, b, f);
    PushHistory(run, p, f);
    PoppedAfter(run, f, n, x, y);
  }

  /** In every run: a batch comes out in its order. */
  lemma BatchOrder(run: seq<State>, p: nat, f: nat, n: nat, r: nat, t: nat)
    requires IsRun(run) && p < |run[0].prods| && f <= n < |run|
    requires p < |run[f].prods| && run[f].prods[p].Pushing? && r < t < |run[f].prods[p].mine|
    requires run[f].prods[p].mine[t] in run[n].out
    ensures PoppedBefore(run[n], run[f].prods[p].mine[r], run[f].prods[p].mine[t])
  {
    PushHistory(run, p, f);
    PoppedAfter(run, f, n, run[f].prods[p].mine[r], run[f].prods[p].mine[t]);
  }

  // A pop begun at step b is still going at step e.
  ghost predicate SamePop(run: seq<State>, b: nat, e: nat) {
    && b < e < |run| && PopBegin(run[b], run[b + 1])
    && forall i :: b < i <= e ==> !run[i].cons.at.Away?
  }

  lemma DueStays(s: State, s': State)
    requires Next(s, s') && !s.cons.at.Away?
    ensures s'.cons.due == s.cons.due
  {}

  ghost predicate DueAt(run: seq<State>, i: nat)
    requires i + 1 < |run|
  {
    !run[i].cons.at.Away? ==> run[i + 1].cons.due == run[i].cons.due
  }

  lemma {:induction false} DueFrom(run: seq<State>, b: nat, e: nat)
    requires SamePop(run, b, e) && forall i: nat :: i < |run| - 1 ==> DueAt(run, i)
    ensures run[e].cons.due == run[b].cells.Keys
  {
    if e > b + 1 {
      DueFrom(run, b, e - 1);
      assert DueAt(run, e - 1);
    }
  }

  lemma DueSince(run: seq<State>, b: nat, e: nat)
    requires IsRun(run) && SamePop(run, b, e)
    ensures run[e].cons.due == run[b].cells.Keys
  {
    forall i: nat | i < |run| - 1 ensures DueAt(run, i) {
      assert Next(run[i], run[i + 1]);
      if !run[i].cons.at.Away? { DueStays(run[i], run[i + 1]); }
    }
    DueFrom(run, b, e);
  }

  lemma EmptyIsEmpty(s: State, s': State)
    requires Inv(s) && AnswersEmpty(s, s')
    ensures forall x :: x in s.cons.due ==> x in s.out
  {
    if PopNoNext(s, s') {
      forall x | x in s.cons.due ensures x in s.out {
        assert CellOk(s, x);
      }
    } else {
      forall x | x in s.cons.due ensures x in s.out {
        assert CellOk(s, x);
      }
    }
  }

  /** In every run: a pop answers empty only if every element filled before it
      began, and so every element of a push that had returned by then, has been
      popped. */
  lemma EmptyAnswer(run: seq<State>, b: nat, e: nat)
    requires IsRun(run) && SamePop(run, b, e) && e + 1 < |run|
    requires AnswersEmpty(run[e], run[e + 1])
    ensures forall x :: x in run[b].cells ==> x in run[e].out
    ensures forall x :: x in run[b].finished ==> x in run[e].out
  {
    RunHolds(run, b);
    RunHolds(run, e);
    DueSince(run, b, e);
    EmptyIsEmpty(run[e], run[e + 1]);
  }

  /** In every run: no element is popped twice, each popped element is one a
      push put in its cell, and it keeps its value from then on. */
  lemma PoppedOnce(run: seq<State>, f: nat, n: nat)
    requires IsRun(run) && f <= n < |run|
    ensures forall i, j :: 0 <= i < j < |run[n].out| ==> run[n].out[i] != run[n].out[j]
    ensures forall x :: x in run[n].out ==> x in run[n].cells
    ensures forall x :: x in run[f].cells ==> x in run[n].cells && run[n].cells[x].val == run[f].cells[x].val
  {
    RunHolds(run, n);
    RunExtends(run, f, n);
  }

  /** What a push has placed so far: its items, in order, each in a cell of its
      own at increasing positions. */
  lemma PushPlaces(run: seq<State>, p: nat, f: nat)
    requires IsRun(run) && f < |run| && p < |run[f].prods| && run[f].prods[p].Pushing?
    ensures var b := run[f].prods[p];
            && |b.mine| == b.k <= |b.items| && Sorted(b.mine)
            && (forall r :: 0 <= r < b.k ==> b.mine[r] in run[f].cells && run[f].cells[b.mine[r]].val == b.items[r])
            && (b.at.Placed? ==> b.k == |b.items|)
  {
    RunHolds(run, f);
    var b := run[f].prods[p];
    assert ProducerOk(run[f], b);
    assert forall r :: 0 <= r < b.k ==> b.mine[r] in b.Earlier();
  }

  /** The destructor visits, from the head's cell on, the cells that read full:
      exactly the elements pushed and not popped. */
  lemma DestructorVisitsQueued(run: seq<State>, n: nat)
    requires IsRun(run) && n < |run|
    ensures var s := run[n];
            && s.head < |s.segs|
            && forall x: Pos :: (Full(s, x) && !Lt(x, HeadPos(s))) <==> (x in s.cells && x !in s.out)
  {
    RunHolds(run, n);
  }

  /** The holes: in order, the cells before the walk's end that are not
      popped, each at or past the head. */
  lemma HolesAreTheUntaken(run: seq<State>, n: nat)
    requires IsRun(run) && n < |run|
    ensures var s := run[n];
            && Sorted(s.cons.holes)
            && (forall x: Pos :: x in s.cons.holes <==> x.idx < SEGMENT && Lt(x, s.cons.walk) && x !in s.out)
            && s.head < |s.segs| && (forall x :: x in s.cons.holes ==> !Lt(x, HeadPos(s)))
  {
    RunHolds(run, n);
  }

  /** The head never passes the tail, so the segment a pop retires is no longer
      the one pushes find through the tail. */
  lemma RetiredIsBehindTail(run: seq<State>, n: nat)
    requires IsRun(run) && n + 1 < |run| && PopAdvanceHead(run[n], run[n + 1])
    ensures run[n].head < run[n].tail < |run[n].segs|
    ensures forall x: Pos :: x.seg == run[n].head && x.idx < SEGMENT ==> x in run[n].out
  {
    RunHolds(run, n);
  }
}
