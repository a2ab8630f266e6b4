/** The segmented queue with any number of producers and of consumers
    (runtime/segment_queue.hpp, kManyConsumers true).

    Pushes take cells of the tail segment with a fetch-and-add of its count,
    pops take cells of the head segment the same way. A pop that reaches a
    cell no push has taken marks it skipped; a push that finds a cell of its
    batch skipped gives up the cells after it and pushes the rest again. One
    step of the machine is one access to shared memory. Segments are named by
    their place in the list. */
module SegmentQueueMany {
  import opened Basics
  import opened Positions

  type Elem(!new)

  // Cells in a segment (kSegment), any positive number.
  const SEGMENT: Positive

  datatype Segment = Segment(deq: nat, enq: nat)

  // A cell not in the map is kEmpty.
  datatype Cell = Skipped | Full(val: Elem)

  // Where a push is in push_run.
  datatype Stage =
    | ReadTail
    | Reserve(t: nat)
    | Fill(t: nat, j: nat, stop: nat, end: nat)
    | GiveUp(t: nat, j: nat, stop: nat, end: nat)
    | ReadNext(t: nat)
    | Link(t: nat)
    | MoveTail(t: nat)
    | Placed

  // A push of items, of which the first k are in cells. History: `mine` lists
  // those cells, `before` holds the cells of the pushes that had returned
  // when this one began.
  datatype Producer =
    | Idle
    | Pushing(items: seq<Elem>, k: nat, mine: seq<Pos>, before: set<Pos>, at: Stage)

  // Where a pop is in pop_many. h: the head segment as it was read.
  datatype Place =
    | Away
    | ReadHead
    | ReadDeq(h: nat)
    | ReadEnq(h: nat, d: nat)
    | CheckNext(h: nat)
    | Claim(h: nat)
    | Past(h: nat)
    | AdvanceTail(h: nat)
    | AdvanceHead(h: nat)
    | ReadState(h: nat, i: nat)
    | LookEnq(h: nat, i: nat)
    | Wait(h: nat, i: nat)
    | Skip(h: nat, i: nat)
    | Take(h: nat, i: nat)
  {
    // The cell a pop has taken and not yet dealt with.
    predicate Holds() {
      ReadState? || LookEnq? || Wait? || Skip? || Take?
    }
  }

  datatype Consumer = Consumer(at: Place)

  // History: owner says which push has taken which cell and not yet dealt
  // with it, holder the same for pops; claims lists the cells pops have
  // taken, in order; out holds those whose elements they have handed out;
  // finished holds the cells of the pushes that have returned.
  datatype State = State(segs: seq<Segment>, cells: map<Pos, Cell>, head: nat, tail: nat,
                         prods: seq<Producer>, cons: seq<Consumer>, owner: map<Pos, nat>, holder: map<Pos, nat>,
                         claims: seq<Pos>, out: set<Pos>, finished: set<Pos>)

  ghost predicate Init(s: State) {
    && s.segs == [Segment(0, 0)] && s.cells == map[] && s.head == 0 && s.tail == 0
    && (forall p :: 0 <= p < |s.prods| ==> s.prods[p] == Idle)
    && (forall q :: 0 <= q < |s.cons| ==> s.cons[q] == Consumer(Away))
    && s.owner == map[] && s.holder == map[] && s.claims == [] && s.out == {} && s.finished == {}
  }

  // ---------------------------------------------------------------- pushes

  ghost predicate At(s: State, p: nat) {
    p < |s.prods| && s.prods[p].Pushing?
  }

  ghost predicate PushBegin(s: State, s': State, p: nat, items: seq<Elem>) {
    && p < |s.prods| && s.prods[p].Idle?
    && var b := Pushing(items, 0, [], s.finished, if items == [] then Placed else ReadTail);
       s' == s.(prods := s.prods[p := b])
  }

  ghost predicate PushProtect(s: State, s': State, p: nat) {
    && At(s, p) && s.prods[p].at.ReadTail?
    && s' == s.(prods := s.prods[p := s.prods[p].(at := Reserve(s.tail))])
  }

  ghost predicate PushReserve(s: State, s': State, p: nat) {
    && At(s, p) && s.prods[p].at.Reserve? && s.prods[p].at.t < |s.segs| && s.prods[p].k <= |s.prods[p].items|
    && var b := s.prods[p];
       var t := b.at.t;
       var i := s.segs[t].enq;
       var end := i + (|b.items| - b.k);
       var stop := Min(end, SEGMENT);
       s' == s.(prods := s.prods[p := b.(at := if i < SEGMENT then Fill(t, i, stop, end) else ReadNext(t))],
                segs := s.segs[t := s.segs[t].(enq := end)],
                owner := if i < SEGMENT then s.owner + OwnedBy(t, i, stop, p) else s.owner)
  }

  ghost function OwnedBy(t: nat, i: nat, stop: nat, p: nat): map<Pos, nat> {
    map x: Pos | x in FirstSet(t, stop) && i <= x.idx :: p
  }

  // What follows the last cell of a run.
  function AfterRun(t: nat, end: nat, done: bool): Stage {
    if done then Placed else if end <= SEGMENT then ReadTail else ReadNext(t)
  }

  // The compare-and-swap that marks the cell full succeeds.
  ghost predicate PushFill(s: State, s': State, p: nat) {
    && At(s, p) && s.prods[p].at.Fill? && s.prods[p].k < |s.prods[p].items|
    && var b := s.prods[p];
       var Fill(t, j, stop, end) := b.at;
       var x := Pos(t, j);
       && x !in s.cells
       && s' == s.(cells := s.cells[x := Full(b.items[b.k])], owner := s.owner - {x},
                   prods := s.prods[p := b.(k := b.k + 1, mine := b.mine + [x],
                              at := if j + 1 < stop then Fill(t, j + 1, stop, end)
                                    else AfterRun(t, end, b.k + 1 == |b.items|))])
  }

  // It finds the cell skipped: the element is taken back.
  ghost predicate PushSkipped(s: State, s': State, p: nat) {
    && At(s, p) && s.prods[p].at.Fill?
    && var b := s.prods[p];
       var Fill(t, j, stop, end) := b.at;
       var x := Pos(t, j);
       && x in s.cells
       && s' == s.(owner := s.owner - {x},
                   prods := s.prods[p := b.(at := if j + 1 < stop then GiveUp(t, j + 1, stop, end)
                                                  else AfterRun(t, end, false))])
  }

  // A cell of the batch given up, unless a pop has skipped it.
  ghost predicate PushGiveUp(s: State, s': State, p: nat) {
    && At(s, p) && s.prods[p].at.GiveUp?
    && var b := s.prods[p];
       var GiveUp(t, j, stop, end) := b.at;
       var x := Pos(t, j);
       s' == s.(cells := if x in s.cells then s.cells else s.cells[x := Skipped], owner := s.owner - {x},
                prods := s.prods[p := b.(at := if j + 1 < stop then GiveUp(t, j + 1, stop, end)
                                               else AfterRun(t, end, false))])
  }

  ghost predicate PushReadNext(s: State, s': State, p: nat) {
    && At(s, p) && s.prods[p].at.ReadNext?
    && var t := s.prods[p].at.t;
       s' == s.(prods := s.prods[p := s.prods[p].(at := if t + 1 < |s.segs| then MoveTail(t) else Link(t))])
  }

  // What is left of the push, up to a segment of it, is in the first m cells
  // of segment seg.
  ghost predicate Carries(b: Producer, c: Producer, seg: nat, m: nat, cells: map<Pos, Cell>, cells': map<Pos, Cell>)
    requires b.Pushing? && b.at.Link? && b.k + m <= |b.items|
  {
    && (forall x :: x in cells' <==> x in cells || (x.seg == seg && x.idx < m))
    && (forall x :: x in cells' ==>
          cells'[x] == if x.seg == seg && x.idx < m then Full(b.items[b.k + x.idx]) else cells[x])
    && c.Pushing? && c.items == b.items && c.before == b.before && c.k == b.k + m && c.at == MoveTail(b.at.t)
    && |c.mine| == |b.mine| + m && b.mine <= c.mine
    && (forall r :: |b.mine| <= r < |c.mine| ==> c.mine[r] == Pos(seg, r - |b.mine|))
  }

  // The compare-and-swap of next: lost to another push, or the new segment,
  // with what is left of the batch in it, is linked.
  ghost predicate PushLink(s: State, s': State, p: nat) {
    && At(s, p) && s.prods[p].at.Link? && s.prods[p].k <= |s.prods[p].items|
    && var b := s.prods[p];
       var t := b.at.t;
       var m := Min(SEGMENT, |b.items| - b.k);
       if t + 1 < |s.segs| then
         s' == s.(prods := s.prods[p := b.(at := MoveTail(t))])
       else
         && |s'.prods| == |s.prods|
         && Carries(b, s'.prods[p], t + 1, m, s.cells, s'.cells)
         && s' == s.(segs := s.segs + [Segment(0, m)], cells := s'.cells, prods := s.prods[p := s'.prods[p]])
  }

  ghost predicate PushMoveTail(s: State, s': State, p: nat) {
    && At(s, p) && s.prods[p].at.MoveTail?
    && var b := s.prods[p];
       s' == s.(prods := s.prods[p := b.(at := if b.k == |b.items| then Placed else ReadTail)],
                tail := if s.tail == b.at.t then b.at.t + 1 else s.tail)
  }

  ghost predicate PushEnd(s: State, s': State, p: nat) {
    && At(s, p) && s.prods[p].at.Placed?
    && s' == s.(prods := s.prods[p := Idle], finished := s.finished + Elements(s.prods[p].mine))
  }

  // ------------------------------------------------------------------ pops

  ghost predicate Goes(s: State, s': State, q: nat, at: Place) {
    q < |s.cons| && s' == s.(cons := s.cons[q := s.cons[q].(at := at)])
  }

  ghost predicate IsAt(s: State, q: nat, h: nat) {
    q < |s.cons| && h < |s.segs|
  }

  ghost function FullCells(s: State): set<Pos> {
    set x | x in s.cells && s.cells[x].Full?
  }

  ghost predicate PopBegin(s: State, s': State, q: nat) {
    && q < |s.cons| && s.cons[q].at.Away?
    && s' == s.(cons := s.cons[q := Consumer(ReadHead)])
  }

  ghost predicate PopProtect(s: State, s': State, q: nat) {
    q < |s.cons| && s.cons[q].at.ReadHead? && Goes(s, s', q, ReadDeq(s.head))
  }

  ghost predicate PopReadDeq(s: State, s': State, q: nat) {
    && q < |s.cons| && s.cons[q].at.ReadDeq? && IsAt(s, q, s.cons[q].at.h)
    && Goes(s, s', q, ReadEnq(s.cons[q].at.h, s.segs[s.cons[q].at.h].deq))
  }

  ghost predicate PopReadEnq(s: State, s': State, q: nat) {
    && q < |s.cons| && s.cons[q].at.ReadEnq? && IsAt(s, q, s.cons[q].at.h)
    && var ReadEnq(h, d) := s.cons[q].at;
       Goes(s, s', q, if d >= s.segs[h].enq then CheckNext(h) else Claim(h))
  }

  ghost predicate PopCheckNext(s: State, s': State, q: nat) {
    && q < |s.cons| && s.cons[q].at.CheckNext?
    && Goes(s, s', q, if s.cons[q].at.h + 1 < |s.segs| then Claim(s.cons[q].at.h) else Away)
  }

  // The fetch-and-add of the head segment's index.
  ghost predicate PopClaim(s: State, s': State, q: nat) {
    && q < |s.cons| && s.cons[q].at.Claim? && IsAt(s, q, s.cons[q].at.h)
    && var h := s.cons[q].at.h;
       var i := s.segs[h].deq;
       var x := Pos(h, i);
       if i < SEGMENT then
         s' == s.(segs := s.segs[h := s.segs[h].(deq := i + 1)],
                  claims := s.claims + [x], holder := s.holder[x := q],
                  cons := s.cons[q := s.cons[q].(at := ReadState(h, i))])
       else
         s' == s.(segs := s.segs[h := s.segs[h].(deq := i + 1)], cons := s.cons[q := s.cons[q].(at := Past(h))])
  }

  ghost predicate PopPast(s: State, s': State, q: nat) {
    && q < |s.cons| && s.cons[q].at.Past?
    && Goes(s, s', q, if s.cons[q].at.h + 1 < |s.segs| then AdvanceTail(s.cons[q].at.h) else Away)
  }

  // advance_head.
  ghost predicate PopAdvanceTail(s: State, s': State, q: nat) {
    && q < |s.cons| && s.cons[q].at.AdvanceTail?
    && var h := s.cons[q].at.h;
       s' == s.(cons := s.cons[q := s.cons[q].(at := AdvanceHead(h))], tail := if s.tail == h then h + 1 else s.tail)
  }

  ghost predicate PopAdvanceHead(s: State, s': State, q: nat) {
    && q < |s.cons| && s.cons[q].at.AdvanceHead?
    && var h := s.cons[q].at.h;
       s' == s.(cons := s.cons[q := s.cons[q].(at := ReadHead)], head := if s.head == h then h + 1 else s.head)
  }

  // Where a pop goes from the state it has read of its cell.
  function FromState(s: State, h: nat, i: nat, empty: Place): Place {
    var x := Pos(h, i);
    if x !in s.cells then empty else if s.cells[x].Skipped? then ReadHead else Take(h, i)
  }

  // A cell found skipped is dealt with.
  ghost function Released(s: State, x: Pos): map<Pos, nat> {
    if x in s.cells && s.cells[x].Skipped? then s.holder - {x} else s.holder
  }

  ghost predicate PopReadState(s: State, s': State, q: nat) {
    && q < |s.cons| && s.cons[q].at.ReadState?
    && var ReadState(h, i) := s.cons[q].at;
       s' == s.(holder := Released(s, Pos(h, i)),
                cons := s.cons[q := s.cons[q].(at := FromState(s, h, i, LookEnq(h, i)))])
  }

  // The load of enq that decides (the ones before it only pass the time).
  ghost predicate PopLookEnq(s: State, s': State, q: nat) {
    && q < |s.cons| && s.cons[q].at.LookEnq? && IsAt(s, q, s.cons[q].at.h)
    && var LookEnq(h, i) := s.cons[q].at;
       Goes(s, s', q, if i < s.segs[h].enq then Wait(h, i) else Skip(h, i))
  }

  ghost predicate PopWait(s: State, s': State, q: nat) {
    && q < |s.cons| && s.cons[q].at.Wait?
    && var Wait(h, i) := s.cons[q].at;
       s' == s.(holder := Released(s, Pos(h, i)),
                cons := s.cons[q := s.cons[q].(at := FromState(s, h, i, Wait(h, i)))])
  }

  // The compare-and-swap that marks the cell skipped, if it is still empty.
  ghost predicate PopSkip(s: State, s': State, q: nat) {
    && q < |s.cons| && s.cons[q].at.Skip?
    && var Skip(h, i) := s.cons[q].at;
       var x := Pos(h, i);
       if x !in s.cells then
         s' == s.(cells := s.cells[x := Skipped], holder := s.holder - {x},
                  cons := s.cons[q := s.cons[q].(at := ReadHead)])
       else
         s' == s.(holder := Released(s, x),
                  cons := s.cons[q := s.cons[q].(at := FromState(s, h, i, ReadHead))])
  }

  ghost predicate PopTake(s: State, s': State, q: nat) {
    && q < |s.cons| && s.cons[q].at.Take?
    && var x := Pos(s.cons[q].at.h, s.cons[q].at.i);
       s' == s.(out := s.out + {x}, holder := s.holder - {x}, cons := s.cons[q := s.cons[q].(at := Away)])
  }

  ghost predicate PushStep(s: State, s': State, p: nat) {
    || (exists items :: PushBegin(s, s', p, items))
    || PushProtect(s, s', p) || PushReserve(s, s', p) || PushFill(s, s', p) || PushSkipped(s, s', p)
    || PushGiveUp(s, s', p) || PushReadNext(s, s', p) || PushLink(s, s', p) || PushMoveTail(s, s', p)
    || PushEnd(s, s', p)
  }

  ghost predicate PopSegmentStep(s: State, s': State, q: nat) {
    || PopBegin(s, s', q) || PopProtect(s, s', q) || PopReadDeq(s, s', q) || PopReadEnq(s, s', q)
    || PopCheckNext(s, s', q) || PopPast(s, s', q) || PopAdvanceTail(s, s', q) || PopAdvanceHead(s, s', q)
  }

  ghost predicate PopCellStep(s: State, s': State, q: nat) {
    || PopClaim(s, s', q) || PopReadState(s, s', q) || PopLookEnq(s, s', q) || PopWait(s, s', q)
    || PopSkip(s, s', q) || PopTake(s, s', q)
  }

  ghost predicate PopStep(s: State, s': State, q: nat) {
    PopSegmentStep(s, s', q) || PopCellStep(s, s', q)
  }

  ghost predicate Next(s: State, s': State) {
    exists p: nat :: PushStep(s, s', p) || PopStep(s, s', p)
  }

  ghost predicate IsRun(run: seq<State>) {
    && |run| > 0 && Init(run[0])
    && forall i :: 0 <= i < |run| - 1 ==> Next(run[i], run[i + 1])
  }

  // ------------------------------------------------------------- invariant

  ghost predicate SegmentsOk(segs: seq<Segment>, head: nat, tail: nat) {
    && head <= tail < |segs|
    && (forall i :: 0 <= i < head ==> segs[i].deq >= SEGMENT)
    && (forall i :: head < i < |segs| ==> segs[i].deq == 0)
    && (forall i :: 0 <= i < |segs| - 1 ==> segs[i].enq > SEGMENT)
  }

  // A pop has taken cell x.
  ghost predicate Claimed(segs: seq<Segment>, x: Pos) {
    x.seg < |segs| && x.idx < SEGMENT && x.idx < segs[x.seg].deq
  }

  // A push has taken cell x.
  ghost predicate Reserved(segs: seq<Segment>, x: Pos) {
    x.seg < |segs| && x.idx < SEGMENT && x.idx < segs[x.seg].enq
  }

  // A full cell was taken by a push, a skipped one by a push or a pop. A cell
  // a push has taken is dealt with, or owed by that push; one a pop has taken
  // is skipped, handed out, or held by that pop.
  ghost predicate CellsOk(segs: seq<Segment>, cells: map<Pos, Cell>, owner: map<Pos, nat>, holder: map<Pos, nat>,
                          out: set<Pos>) {
    && (forall x :: x in cells ==> Reserved(segs, x) || (cells[x].Skipped? && Claimed(segs, x)))
    && (forall x :: x in owner ==> Reserved(segs, x) && (x in cells ==> cells[x].Skipped?))
    && (forall x :: Reserved(segs, x) && x !in cells ==> x in owner)
    && (forall x :: x in holder ==> Claimed(segs, x) && x !in out)
    && (forall x :: x in out ==> x in cells && cells[x].Full? && Claimed(segs, x))
    && (forall x :: Claimed(segs, x) ==> x in holder || x in out || (x in cells && cells[x].Skipped?))
  }

  ghost predicate ClaimsOk(segs: seq<Segment>, claims: seq<Pos>) {
    Sorted(claims) && forall x :: x in claims <==> Claimed(segs, x)
  }

  // Every cell of an element that must precede the push's next one lies below
  // where that one will land.
  ghost predicate Below(tail: nat, at: Stage, x: Pos) {
    match at
    case ReadTail => x.seg <= tail
    case Reserve(t) => x.seg <= t
    case Fill(t, j, _, _) => Lt(x, Pos(t, j))
    case GiveUp(t, _, _, _) => x.seg <= t
    case ReadNext(t) => x.seg <= t
    case Link(t) => x.seg <= t
    case MoveTail(t) => x.seg <= t + 1
    case Placed => x.seg <= tail
  }

  ghost predicate StageOk(segs: seq<Segment>, tail: nat, b: Producer)
    requires b.Pushing?
  {
    && b.k <= |b.items| && tail < |segs|
    && match b.at
       case ReadTail => b.k < |b.items|
       case Reserve(t) => b.k < |b.items| && t <= tail
       case Fill(t, j, stop, end) =>
         && t <= tail && j < stop == Min(end, SEGMENT) && end <= segs[t].enq && end - j == |b.items| - b.k
       case GiveUp(t, j, stop, end) =>
         b.k < |b.items| && t <= tail && j < stop == Min(end, SEGMENT) && end <= segs[t].enq
       case ReadNext(t) => b.k < |b.items| && t <= tail && segs[t].enq > SEGMENT
       case Link(t) => b.k < |b.items| && t <= tail && segs[t].enq > SEGMENT
       case MoveTail(t) => t <= tail && t + 1 < |segs|
       case Placed => b.k == |b.items|
  }

  // The push owes the cells it has taken and not yet dealt with.
  ghost predicate Owes(b: Producer, x: Pos) {
    b.Pushing? && (b.at.Fill? || b.at.GiveUp?) && b.at.t == x.seg && b.at.j <= x.idx < b.at.stop
  }

  // What a push has placed: its items, in order, above the cells it follows.
  ghost predicate PlacedOk(cells: map<Pos, Cell>, b: Producer)
    requires b.Pushing?
  {
    && (forall x :: x in b.before || x in b.mine ==> x in cells && cells[x].Full?)
    && |b.mine| == b.k <= |b.items| && Sorted(b.mine)
    && (forall x, y :: x in b.before && y in b.mine ==> Lt(x, y))
    && (forall r :: 0 <= r < b.k ==> cells[b.mine[r]] == Full(b.items[r]))
  }

  ghost predicate ProducerOk(s: State, p: nat, b: Producer) {
    && (forall x: Pos :: Owes(b, x) ==> x in s.owner && s.owner[x] == p)
    && (b.Pushing? ==>
        && StageOk(s.segs, s.tail, b)
        && PlacedOk(s.cells, b)
        && (forall x :: x in b.before || x in b.mine ==> Below(s.tail, b.at, x)))
  }

  ghost predicate ProducersOk(s: State) {
    && (forall p :: 0 <= p < |s.prods| ==> ProducerOk(s, p, s.prods[p]))
    && (forall x :: x in s.owner ==> s.owner[x] < |s.prods| && Owes(s.prods[s.owner[x]], x))
    && (forall x :: x in s.finished ==> x in s.cells && s.cells[x].Full? && x.seg <= s.tail)
  }

  ghost predicate PlaceOk(s: State, q: nat, c: Consumer) {
    match c.at
    case Away => true
    case ReadHead => true
    case ReadDeq(h) => h <= s.head
    case ReadEnq(h, d) => h <= s.head < |s.segs| && d <= s.segs[h].deq
    case CheckNext(h) => h <= s.head
    case Claim(h) => h <= s.head
    case Past(h) => h <= s.head < |s.segs| && s.segs[h].deq > SEGMENT
    case AdvanceTail(h) => h <= s.head < |s.segs| && s.segs[h].deq > SEGMENT && h + 1 < |s.segs|
    case AdvanceHead(h) => h <= s.head < |s.segs| && s.segs[h].deq > SEGMENT && h < s.tail
    case ReadState(h, i) => Held(s, q, h, i)
    case LookEnq(h, i) => Held(s, q, h, i)
    case Wait(h, i) => Held(s, q, h, i) && h < |s.segs| && i < s.segs[h].enq
    case Skip(h, i) => Held(s, q, h, i)
    case Take(h, i) => Held(s, q, h, i) && Pos(h, i) in s.cells && s.cells[Pos(h, i)].Full?
  }

  ghost predicate Held(s: State, q: nat, h: nat, i: nat) {
    h <= s.head && Pos(h, i) in s.holder && s.holder[Pos(h, i)] == q
  }

  ghost predicate ConsumersOk(s: State) {
    && (forall q :: 0 <= q < |s.cons| ==> PlaceOk(s, q, s.cons[q]))
    && (forall x :: x in s.holder ==>
          && s.holder[x] < |s.cons| && s.cons[s.holder[x]].at.Holds()
          && s.cons[s.holder[x]].at.h == x.seg && s.cons[s.holder[x]].at.i == x.idx)
  }

  ghost predicate QueueOk(s: State) {
    && SegmentsOk(s.segs, s.head, s.tail)
    && CellsOk(s.segs, s.cells, s.owner, s.holder, s.out)
    && ClaimsOk(s.segs, s.claims)
  }

  ghost predicate Inv(s: State) {
    QueueOk(s) && ProducersOk(s) && ConsumersOk(s)
  }

  lemma InitHolds(s: State)
    requires Init(s)
    ensures Inv(s)
  {}

  // ------------------------------------------------------- steps of pushes

  // What a step of any kind does: counts grow, and no full cell changes.
  ghost predicate Grows(s: State, s': State) {
    && |s.segs| <= |s'.segs|
    && (forall i :: 0 <= i < |s.segs| ==> s.segs[i].enq <= s'.segs[i].enq && s.segs[i].deq <= s'.segs[i].deq)
    && s.tail <= s'.tail && s.head <= s'.head && s.finished <= s'.finished && s.out <= s'.out && s.claims <= s'.claims
    && (forall x :: x in s.cells ==> x in s'.cells && s'.cells[x] == s.cells[x])
  }

  ghost predicate PushOnly(s: State, s': State) {
    s'.head == s.head && s'.cons == s.cons && s'.holder == s.holder && s'.out == s.out && s'.claims == s.claims
  }

  lemma ConsumersFrame(s: State, s': State)
    requires ConsumersOk(s) && Grows(s, s') && PushOnly(s, s')
    ensures ConsumersOk(s')
  {
    assert FullCells(s) <= FullCells(s');
    forall q | 0 <= q < |s.cons| ensures PlaceOk(s', q, s.cons[q]) {
      assert PlaceOk(s, q, s.cons[q]);
    }
  }

  lemma OtherProducer(s: State, s': State, p: nat, b: Producer)
    requires ProducerOk(s, p, b) && Grows(s, s') && s'.tail < |s'.segs|
    requires forall x :: x in s.owner && s.owner[x] == p ==> x in s'.owner && s'.owner[x] == p
    ensures ProducerOk(s', p, b)
  {}

  lemma ProducersKept(s: State, s': State, p: nat, b: Producer)
    requires ProducersOk(s) && Grows(s, s') && s'.tail < |s'.segs|
    requires p < |s.prods| && s'.prods == s.prods[p := b] && ProducerOk(s', p, b)
    requires forall x :: x in s.owner && s.owner[x] != p ==> x in s'.owner && s'.owner[x] == s.owner[x]
    requires forall x :: x in s'.owner ==>
            if s'.owner[x] == p then Owes(b, x) else x in s.owner && s.owner[x] == s'.owner[x]
    requires forall x :: x in s'.finished ==> x in s'.cells && s'.cells[x].Full? && x.seg <= s'.tail
    ensures ProducersOk(s')
  {
    forall q | 0 <= q < |s.prods| && q != p ensures ProducerOk(s', q, s.prods[q]) {
      OtherProducer(s, s', q, s.prods[q]);
    }
  }

  // A step that touches no cell and no count.
  lemma QuietPush(s: State, s': State, p: nat, b: Producer)
    requires Inv(s) && p < |s.prods| && s' == s.(prods := s.prods[p := b], tail := s'.tail, finished := s'.finished)
    requires s.tail <= s'.tail < |s.segs| && s.finished <= s'.finished && ProducerOk(s', p, b)
    requires forall x :: Owes(s.prods[p], x) <==> Owes(b, x)
    requires forall x :: x in s'.finished ==> x in s'.cells && s'.cells[x].Full? && x.seg <= s'.tail
    ensures Inv(s') && Grows(s, s')
  {
    ProducersKept(s, s', p, b);
    ConsumersFrame(s, s');
  }

  lemma PushProtectKeeps(s: State, s': State, p: nat)
    requires Inv(s) && PushProtect(s, s', p)
    ensures Inv(s') && Grows(s, s')
  {
    assert ProducerOk(s, p, s.prods[p]);
    QuietPush(s, s', p, s'.prods[p]);
  }

  lemma PushReadNextKeeps(s: State, s': State, p: nat)
    requires Inv(s) && PushReadNext(s, s', p)
    ensures Inv(s') && Grows(s, s')
  {
    assert ProducerOk(s, p, s.prods[p]);
    QuietPush(s, s', p, s'.prods[p]);
  }

  lemma PushMoveTailKeeps(s: State, s': State, p: nat)
    requires Inv(s) && PushMoveTail(s, s', p)
    ensures Inv(s') && Grows(s, s')
  {
    assert ProducerOk(s, p, s.prods[p]);
    QuietPush(s, s', p, s'.prods[p]);
  }

  lemma PushEndKeeps(s: State, s': State, p: nat)
    requires Inv(s) && PushEnd(s, s', p)
    ensures Inv(s') && Grows(s, s')
  {
    assert ProducerOk(s, p, s.prods[p]);
    QuietPush(s, s', p, s'.prods[p]);
  }

  lemma PushBeginKeeps(s: State, s': State, p: nat, items: seq<Elem>)
    requires Inv(s) && PushBegin(s, s', p, items)
    ensures Inv(s') && Grows(s, s')
  {
    QuietPush(s, s', p, s'.prods[p]);
  }

  lemma PushReserveMaps(s: State, s': State, p: nat)
    requires PushReserve(s, s', p)
    ensures var t := s.prods[p].at.t;
            var i := s.segs[t].enq;
            && (forall x :: Claimed(s'.segs, x) <==> Claimed(s.segs, x))
            && (forall x :: Reserved(s'.segs, x) <==>
                  Reserved(s.segs, x) || (x.seg == t && i <= x.idx < Min(s'.segs[t].enq, SEGMENT)))
            && (forall x :: x in s'.owner <==>
                x in s.owner || (x.seg == t && i <= x.idx < Min(s'.segs[t].enq, SEGMENT)))
            && (forall x :: x in s'.owner ==>
                  s'.owner[x] == if x.seg == t && i <= x.idx < Min(s'.segs[t].enq, SEGMENT) then p else s.owner[x])
  {}

  lemma PushReserveQueue(s: State, s': State, p: nat)
    requires QueueOk(s) && PushReserve(s, s', p)
    ensures QueueOk(s')
  {
    PushReserveMaps(s, s', p);
    assert SegmentsOk(s'.segs, s'.head, s'.tail);
  }

  lemma PushReserveKeeps(s: State, s': State, p: nat)
    requires Inv(s) && PushReserve(s, s', p)
    ensures Inv(s') && Grows(s, s')
  {
    assert ProducerOk(s, p, s.prods[p]);
    PushReserveQueue(s, s', p);
    assert forall x :: x in s.owner ==> Reserved(s.segs, x);
    PushReserveRest(s, s', p);
    ConsumersFrame(s, s');
  }

  lemma PushReserveRest(s: State, s': State, p: nat)
    requires SegmentsOk(s.segs, s.head, s.tail) && ProducersOk(s) && PushReserve(s, s', p)
    requires forall x :: x in s.owner ==> Reserved(s.segs, x)
    requires forall x :: x in s.cells && s.cells[x].Full? ==> Reserved(s.segs, x)
    ensures ProducersOk(s') && Grows(s, s')
  {
    assert ProducerOk(s, p, s.prods[p]);
    PushReserveOwn(s, s', p);
    assert Grows(s, s');
    PushReserveOwes(s, s', p);
    ProducersKept(s, s', p, s'.prods[p]);
  }

  // The cells it reserved are its to deal with; the others' are theirs.
  lemma PushReserveOwes(s: State, s': State, p: nat)
    requires SegmentsOk(s.segs, s.head, s.tail) && PushReserve(s, s', p) && ProducersOk(s)
    requires forall x :: x in s.owner ==> Reserved(s.segs, x)
    ensures forall x :: x in s.owner && s.owner[x] != p ==> x in s'.owner && s'.owner[x] == s.owner[x]
    ensures forall x :: x in s'.owner ==>
              if s'.owner[x] == p then Owes(s'.prods[p], x) else x in s.owner && s.owner[x] == s'.owner[x]
  {
    assert ProducerOk(s, p, s.prods[p]);
    PushReserveMaps(s, s', p);
  }

  lemma PushReserveOwn(s: State, s': State, p: nat)
    requires SegmentsOk(s.segs, s.head, s.tail) && PushReserve(s, s', p) && ProducerOk(s, p, s.prods[p])
    requires forall x :: x in s.cells && s.cells[x].Full? ==> Reserved(s.segs, x)
    ensures ProducerOk(s', p, s'.prods[p])
  {
    PushReserveMaps(s, s', p);
  }

  // A push's next cell: it owes it, and then no longer does.
  lemma Dealt(s: State, s': State, p: nat)
    requires At(s, p) && (s.prods[p].at.Fill? || s.prods[p].at.GiveUp?) && StageOk(s.segs, s.tail, s.prods[p])
    requires |s'.prods| == |s.prods| && s'.prods[p].Pushing?
    requires var t, j, stop, end := s.prods[p].at.t, s.prods[p].at.j, s.prods[p].at.stop, s.prods[p].at.end;
             var at := s'.prods[p].at;
             if j + 1 < stop then (at == Fill(t, j + 1, stop, end) || at == GiveUp(t, j + 1, stop, end))
             else !at.Fill? && !at.GiveUp?
    ensures var x := Pos(s.prods[p].at.t, s.prods[p].at.j);
            Owes(s.prods[p], x) && forall y :: Owes(s'.prods[p], y) <==> Owes(s.prods[p], y) && y != x
  {}

  lemma PushFillQueue(s: State, s': State, p: nat)
    requires QueueOk(s) && PushFill(s, s', p) && Pos(s.prods[p].at.t, s.prods[p].at.j) in s.owner
    ensures QueueOk(s')
  {}

  lemma PushFillOwn(s: State, s': State, p: nat)
    requires PushFill(s, s', p) && ProducerOk(s, p, s.prods[p]) && s.tail < |s.segs|
    ensures ProducerOk(s', p, s'.prods[p])
  {
    Dealt(s, s', p);
    var b, c := s.prods[p], s'.prods[p];
    forall x | x in c.mine ensures x in b.mine || x == Pos(b.at.t, b.at.j) {}
    assert forall x :: x in b.mine ==> Lt(x, Pos(b.at.t, b.at.j));
    assert forall r :: 0 <= r < b.k ==> b.mine[r] in b.mine;
  }

  lemma PushFillKeeps(s: State, s': State, p: nat)
    requires Inv(s) && PushFill(s, s', p)
    ensures Inv(s') && Grows(s, s')
  {
    assert ProducerOk(s, p, s.prods[p]);
    Dealt(s, s', p);
    PushFillQueue(s, s', p);
    PushFillOwn(s, s', p);
    DealtKeeps(s, s', p);
  }

  // The rest of the invariant, when a push has dealt with its next cell.
  lemma DealtKeeps(s: State, s': State, p: nat)
    requires ProducersOk(s) && ConsumersOk(s) && At(s, p) && (s.prods[p].at.Fill? || s.prods[p].at.GiveUp?)
    requires |s'.prods| == |s.prods|
    requires s' == s.(cells := s'.cells, owner := s.owner - {Pos(s.prods[p].at.t, s.prods[p].at.j)},
                      prods := s.prods[p := s'.prods[p]])
    requires Grows(s, s') && s.tail < |s.segs| && ProducerOk(s', p, s'.prods[p])
    requires Owes(s.prods[p], Pos(s.prods[p].at.t, s.prods[p].at.j))
    requires forall y :: Owes(s'.prods[p], y) <==> Owes(s.prods[p], y) && y != Pos(s.prods[p].at.t, s.prods[p].at.j)
    ensures ProducersOk(s') && ConsumersOk(s')
  {
    assert ProducerOk(s, p, s.prods[p]);
    ProducersKept(s, s', p, s'.prods[p]);
    ConsumersFrame(s, s');
  }

  lemma PushSkippedOwn(s: State, s': State, p: nat)
    requires PushSkipped(s, s', p) && ProducerOk(s, p, s.prods[p]) && s.tail < |s.segs|
    ensures ProducerOk(s', p, s'.prods[p])
  {
    Dealt(s, s', p);
  }

  lemma PushSkippedKeeps(s: State, s': State, p: nat)
    requires Inv(s) && PushSkipped(s, s', p)
    ensures Inv(s') && Grows(s, s')
  {
    assert ProducerOk(s, p, s.prods[p]);
    Dealt(s, s', p);
    assert QueueOk(s') && Grows(s, s');
    PushSkippedOwn(s, s', p);
    DealtKeeps(s, s', p);
  }

  lemma PushGiveUpOwn(s: State, s': State, p: nat)
    requires PushGiveUp(s, s', p) && ProducerOk(s, p, s.prods[p]) && s.tail < |s.segs|
    ensures ProducerOk(s', p, s'.prods[p])
  {
    Dealt(s, s', p);
  }

  lemma PushGiveUpQueue(s: State, s': State, p: nat)
    requires QueueOk(s) && PushGiveUp(s, s', p) && Pos(s.prods[p].at.t, s.prods[p].at.j) in s.owner
    ensures QueueOk(s') && Grows(s, s')
  {}

  lemma PushGiveUpKeeps(s: State, s': State, p: nat)
    requires Inv(s) && PushGiveUp(s, s', p)
    ensures Inv(s') && Grows(s, s')
  {
    assert ProducerOk(s, p, s.prods[p]);
    Dealt(s, s', p);
    PushGiveUpQueue(s, s', p);
    PushGiveUpOwn(s, s', p);
    DealtKeeps(s, s', p);
  }

  // A segment added at the end, with its first m cells full.
  ghost predicate Lengthened(s: State, s': State, m: nat) {
    && s'.segs == s.segs + [Segment(0, m)] && s'.head == s.head && s'.tail == s.tail
    && s'.owner == s.owner && s'.holder == s.holder && s'.out == s.out && s'.claims == s.claims
    && (forall x :: x in s'.cells <==> x in s.cells || (x.seg == |s.segs| && x.idx < m))
    && (forall x :: x in s'.cells ==>
        if x.seg == |s.segs| && x.idx < m then s'.cells[x].Full? else s'.cells[x] == s.cells[x])
  }

  lemma LengthenedQueue(s: State, s': State, m: nat)
    requires QueueOk(s) && m <= SEGMENT && s.segs[|s.segs| - 1].enq > SEGMENT && Lengthened(s, s', m)
    ensures QueueOk(s')
  {
    assert forall x :: Claimed(s'.segs, x) <==> Claimed(s.segs, x);
    assert forall x :: Reserved(s'.segs, x) <==> Reserved(s.segs, x) || (x.seg == |s.segs| && x.idx < m);
  }

  lemma PushLinkQueue(s: State, s': State, p: nat)
    requires QueueOk(s) && PushLink(s, s', p) && StageOk(s.segs, s.tail, s.prods[p])
    ensures QueueOk(s')
  {
    var b := s.prods[p];
    if b.at.t + 1 >= |s.segs| {
      LengthenedQueue(s, s', Min(SEGMENT, |b.items| - b.k));
    }
  }

  lemma PushLinkGrows(s: State, s': State, p: nat)
    requires CellsOk(s.segs, s.cells, s.owner, s.holder, s.out) && PushLink(s, s', p)
    requires StageOk(s.segs, s.tail, s.prods[p])
    ensures Grows(s, s')
  {
    assert forall x :: x in s.cells ==> x.seg < |s.segs|;
  }

  lemma LinkedAt(b: Producer, c: Producer, m: nat, cells: map<Pos, Cell>, cells': map<Pos, Cell>, r: nat)
    requires b.Pushing? && b.at.Link? && PlacedOk(cells, b) && b.k + m <= |b.items|
    requires forall x :: x in b.mine ==> x.seg <= b.at.t
    requires Carries(b, c, b.at.t + 1, m, cells, cells') && r < |c.mine|
    ensures c.mine[r] in cells' && cells'[c.mine[r]] == Full(c.items[r]) && c.mine[r].seg <= b.at.t + 1
    ensures if r < b.k then c.mine[r] == b.mine[r] && b.mine[r] in b.mine else c.mine[r] == Pos(b.at.t + 1, r - b.k)
  {
    if r < b.k { assert b.mine[r] in b.mine; }
  }

  lemma LinkedSorted(b: Producer, c: Producer, m: nat, cells: map<Pos, Cell>, cells': map<Pos, Cell>)
    requires b.Pushing? && b.at.Link? && PlacedOk(cells, b) && b.k + m <= |b.items|
    requires forall x :: x in b.mine ==> x.seg <= b.at.t
    requires Carries(b, c, b.at.t + 1, m, cells, cells')
    ensures Sorted(c.mine)
  {
    forall q, r | 0 <= q < r < |c.mine| ensures Lt(c.mine[q], c.mine[r]) {
      LinkedAt(b, c, m, cells, cells', q);
      LinkedAt(b, c, m, cells, cells', r);
    }
  }

  lemma LinkedMine(b: Producer, c: Producer, m: nat, cells: map<Pos, Cell>, cells': map<Pos, Cell>)
    requires b.Pushing? && b.at.Link? && PlacedOk(cells, b) && b.k + m <= |b.items|
    requires forall x :: x in b.before || x in b.mine ==> x.seg <= b.at.t
    requires Carries(b, c, b.at.t + 1, m, cells, cells')
    ensures PlacedOk(cells', c) && forall x :: x in c.before || x in c.mine ==> x.seg <= b.at.t + 1
  {
    LinkedSorted(b, c, m, cells, cells');
    forall r | 0 <= r < |c.mine|
      ensures c.mine[r] in cells' && cells'[c.mine[r]] == Full(c.items[r]) && c.mine[r].seg <= b.at.t + 1
      ensures forall x :: x in b.before ==> Lt(x, c.mine[r])
    {
      LinkedAt(b, c, m, cells, cells', r);
    }
  }

  lemma PushLinkOwn(s: State, s': State, p: nat)
    requires PushLink(s, s', p) && ProducerOk(s, p, s.prods[p]) && s.tail < |s.segs|
    ensures ProducerOk(s', p, s'.prods[p])
  {
    var b, c := s.prods[p], s'.prods[p];
    if b.at.t + 1 >= |s.segs| {
      LinkedMine(b, c, Min(SEGMENT, |b.items| - b.k), s.cells, s'.cells);
      assert StageOk(s'.segs, s'.tail, c);
      assert forall x :: x in c.before || x in c.mine ==> Below(s'.tail, c.at, x);
    }
  }

  lemma PushLinkKeeps(s: State, s': State, p: nat)
    requires Inv(s) && PushLink(s, s', p)
    ensures Inv(s') && Grows(s, s')
  {
    assert ProducerOk(s, p, s.prods[p]);
    PushLinkQueue(s, s', p);
    PushLinkGrows(s, s', p);
    PushLinkOwn(s, s', p);
    ProducersKept(s, s', p, s'.prods[p]);
    ConsumersFrame(s, s');
  }

  // --------------------------------------------------------- steps of pops

  lemma ProducersFrame(s: State, s': State)
    requires ProducersOk(s) && Grows(s, s') && s'.tail < |s'.segs|
    requires s'.prods == s.prods && s'.owner == s.owner && s'.finished == s.finished
    ensures ProducersOk(s')
  {
    forall p | 0 <= p < |s.prods| ensures ProducerOk(s', p, s.prods[p]) {
      OtherProducer(s, s', p, s.prods[p]);
    }
  }

  lemma OtherConsumer(s: State, s': State, q: nat, c: Consumer)
    requires PlaceOk(s, q, c) && Grows(s, s') && s'.head < |s'.segs|
    requires forall x :: x in s.holder && s.holder[x] == q ==> x in s'.holder && s'.holder[x] == q
    ensures PlaceOk(s', q, c)
  {
    assert FullCells(s) <= FullCells(s');
  }

  // Consumer c holds cell x.
  ghost predicate Holding(c: Consumer, x: Pos) {
    c.at.Holds() && c.at.h == x.seg && c.at.i == x.idx
  }

  lemma ConsumersKept(s: State, s': State, q: nat, c: Consumer)
    requires ConsumersOk(s) && Grows(s, s') && s'.head < |s'.segs|
    requires q < |s.cons| && s'.cons == s.cons[q := c] && PlaceOk(s', q, c)
    requires forall x :: x in s.holder && s.holder[x] != q ==> x in s'.holder && s'.holder[x] == s.holder[x]
    requires forall x :: x in s'.holder ==>
               if s'.holder[x] == q then Holding(c, x) else x in s.holder && s.holder[x] == s'.holder[x]
    ensures ConsumersOk(s')
  {
    forall r | 0 <= r < |s.cons| && r != q ensures PlaceOk(s', r, s.cons[r]) {
      OtherConsumer(s, s', r, s.cons[r]);
    }
  }

  // A step that takes and releases no cell.
  lemma QuietPop(s: State, s': State, q: nat, c: Consumer)
    requires Inv(s) && q < |s.cons| && s' == s.(cons := s.cons[q := c], tail := s'.tail, head := s'.head)
    requires SegmentsOk(s'.segs, s'.head, s'.tail) && s.tail <= s'.tail && s.head <= s'.head
    requires PlaceOk(s', q, c)
    requires forall x :: Holding(s.cons[q], x) ==> Holding(c, x)
    ensures Inv(s') && Grows(s, s')
  {
    assert PlaceOk(s, q, s.cons[q]);
    ConsumersKept(s, s', q, c);
    ProducersFrame(s, s');
  }

  lemma PopBeginKeeps(s: State, s': State, q: nat)
    requires Inv(s) && PopBegin(s, s', q)
    ensures Inv(s') && Grows(s, s')
  {
    assert PlaceOk(s, q, s.cons[q]);
    QuietPop(s, s', q, s'.cons[q]);
  }

  lemma PopProtectKeeps(s: State, s': State, q: nat)
    requires Inv(s) && PopProtect(s, s', q)
    ensures Inv(s') && Grows(s, s')
  {
    assert PlaceOk(s, q, s.cons[q]);
    QuietPop(s, s', q, s'.cons[q]);
  }

  lemma PopReadDeqKeeps(s: State, s': State, q: nat)
    requires Inv(s) && PopReadDeq(s, s', q)
    ensures Inv(s') && Grows(s, s')
  {
    assert PlaceOk(s, q, s.cons[q]);
    QuietPop(s, s', q, s'.cons[q]);
  }

  lemma PopReadEnqKeeps(s: State, s': State, q: nat)
    requires Inv(s) && PopReadEnq(s, s', q)
    ensures Inv(s') && Grows(s, s')
  {
    assert PlaceOk(s, q, s.cons[q]);
    QuietPop(s, s', q, s'.cons[q]);
  }

  lemma PopCheckNextKeeps(s: State, s': State, q: nat)
    requires Inv(s) && PopCheckNext(s, s', q)
    ensures Inv(s') && Grows(s, s')
  {
    assert PlaceOk(s, q, s.cons[q]);
    QuietPop(s, s', q, s'.cons[q]);
  }

  lemma PopPastKeeps(s: State, s': State, q: nat)
    requires Inv(s) && PopPast(s, s', q)
    ensures Inv(s') && Grows(s, s')
  {
    assert PlaceOk(s, q, s.cons[q]);
    QuietPop(s, s', q, s'.cons[q]);
  }

  lemma PopAdvanceTailKeeps(s: State, s': State, q: nat)
    requires Inv(s) && PopAdvanceTail(s, s', q)
    ensures Inv(s') && Grows(s, s')
  {
    assert PlaceOk(s, q, s.cons[q]);
    QuietPop(s, s', q, s'.cons[q]);
  }

  lemma PopAdvanceHeadKeeps(s: State, s': State, q: nat)
    requires Inv(s) && PopAdvanceHead(s, s', q)
    ensures Inv(s') && Grows(s, s')
  {
    assert PlaceOk(s, q, s.cons[q]);
    QuietPop(s, s', q, s'.cons[q]);
  }

  lemma PopLookEnqKeeps(s: State, s': State, q: nat)
    requires Inv(s) && PopLookEnq(s, s', q)
    ensures Inv(s') && Grows(s, s')
  {
    assert PlaceOk(s, q, s.cons[q]);
    QuietPop(s, s', q, s'.cons[q]);
  }

  // The step at which a pop takes a cell: the least no pop has taken.
  lemma ClaimedNext(s: State, s': State, q: nat)
    requires QueueOk(s) && PopClaim(s, s', q) && s.cons[q].at.h <= s.head
    ensures var x := Pos(s.cons[q].at.h, s.segs[s.cons[q].at.h].deq);
            && (forall y :: Reserved(s'.segs, y) <==> Reserved(s.segs, y))
            && (forall y :: Claimed(s'.segs, y) <==> Claimed(s.segs, y) || (y == x && x.idx < SEGMENT))
            && !Claimed(s.segs, x)
            && (x.idx < SEGMENT ==> forall y :: Claimed(s.segs, y) ==> Lt(y, x))
  {}

  lemma PopClaimQueue(s: State, s': State, q: nat)
    requires QueueOk(s) && PopClaim(s, s', q) && s.cons[q].at.h <= s.head
    ensures QueueOk(s') && Grows(s, s')
  {
    var h := s.cons[q].at.h;
    var x := Pos(h, s.segs[h].deq);
    ClaimedNext(s, s', q);
    if x.idx < SEGMENT {
      assert forall j :: 0 <= j < |s.claims| ==> s.claims[j] in s.claims;
      assert Sorted(s'.claims);
      assert forall y :: y in s'.claims <==> y in s.claims || y == x;
      assert ClaimsOk(s'.segs, s'.claims);
    }
    assert SegmentsOk(s'.segs, s'.head, s'.tail);
  }

  lemma PopClaimKeeps(s: State, s': State, q: nat)
    requires Inv(s) && PopClaim(s, s', q)
    ensures Inv(s') && Grows(s, s')
  {
    assert PlaceOk(s, q, s.cons[q]);
    PopClaimQueue(s, s', q);
    PopClaimRest(s, s', q);
    ProducersFrame(s, s');
  }

  lemma PopClaimPlace(s: State, s': State, q: nat)
    requires QueueOk(s) && PopClaim(s, s', q) && PlaceOk(s, q, s.cons[q])
    ensures PlaceOk(s', q, s'.cons[q]) && Pos(s.cons[q].at.h, s.segs[s.cons[q].at.h].deq) !in s.holder
  {
    assert FullCells(s') == FullCells(s);
  }

  lemma PopClaimRest(s: State, s': State, q: nat)
    requires QueueOk(s) && ConsumersOk(s) && PopClaim(s, s', q) && Grows(s, s')
    ensures ConsumersOk(s')
  {
    assert PlaceOk(s, q, s.cons[q]);
    PopClaimPlace(s, s', q);
    ConsumersKept(s, s', q, s'.cons[q]);
  }

  // A pop that holds, or held, cell x: the rest of the invariant.
  lemma HolderKeeps(s: State, s': State, q: nat, x: Pos)
    requires ProducersOk(s) && ConsumersOk(s) && QueueOk(s') && Grows(s, s') && q < |s.cons| == |s'.cons|
    requires s'.prods == s.prods && s'.owner == s.owner && s'.finished == s.finished
    requires s'.cons == s.cons[q := s'.cons[q]] && PlaceOk(s', q, s'.cons[q]) && Holding(s.cons[q], x)
    requires s'.holder == s.holder || (s'.holder == s.holder - {x} && x in s.holder && s.holder[x] == q)
    requires s'.holder == s.holder ==> Holding(s'.cons[q], x)
    ensures Inv(s')
  {
    ConsumersKept(s, s', q, s'.cons[q]);
    ProducersFrame(s, s');
  }

  lemma ReleasedQueue(s: State, s': State, x: Pos)
    requires QueueOk(s) && s' == s.(holder := s'.holder, cons := s'.cons)
    requires s'.holder == s.holder || (s'.holder == s.holder - {x} && x in s.cells && s.cells[x].Skipped?)
    ensures QueueOk(s') && Grows(s, s')
  {}

  // A pop's cell read, and released if it is skipped.
  lemma ReleasedKeeps(s: State, s': State, q: nat, h: nat, i: nat, empty: Place)
    requires Inv(s) && q < |s.cons| && Holding(s.cons[q], Pos(h, i))
    requires s' == s.(holder := Released(s, Pos(h, i)),
            cons := s.cons[q := s.cons[q].(at := FromState(s, h, i, empty))])
    requires Pos(h, i) !in s.cells ==>
            PlaceOk(s, q, s.cons[q].(at := empty)) && Holding(s.cons[q].(at := empty), Pos(h, i))
    ensures Inv(s') && Grows(s, s')
  {
    assert PlaceOk(s, q, s.cons[q]);
    ReleasedQueue(s, s', Pos(h, i));
    assert FullCells(s') == FullCells(s) && PlaceOk(s', q, s'.cons[q]);
    HolderKeeps(s, s', q, Pos(h, i));
  }

  lemma PopReadStateKeeps(s: State, s': State, q: nat)
    requires Inv(s) && PopReadState(s, s', q)
    ensures Inv(s') && Grows(s, s')
  {
    assert PlaceOk(s, q, s.cons[q]);
    var ReadState(h, i) := s.cons[q].at;
    ReleasedKeeps(s, s', q, h, i, LookEnq(h, i));
  }

  lemma PopWaitKeeps(s: State, s': State, q: nat)
    requires Inv(s) && PopWait(s, s', q)
    ensures Inv(s') && Grows(s, s')
  {
    assert PlaceOk(s, q, s.cons[q]);
    var Wait(h, i) := s.cons[q].at;
    ReleasedKeeps(s, s', q, h, i, Wait(h, i));
  }

  lemma PopSkipKeeps(s: State, s': State, q: nat)
    requires Inv(s) && PopSkip(s, s', q)
    ensures Inv(s') && Grows(s, s')
  {
    assert PlaceOk(s, q, s.cons[q]);
    var Skip(h, i) := s.cons[q].at;
    if Pos(h, i) in s.cells {
      ReleasedKeeps(s, s', q, h, i, ReadHead);
    } else {
      SkippedKeeps(s, s', q, Pos(h, i));
    }
  }

  lemma SkippedKeeps(s: State, s': State, q: nat, x: Pos)
    requires Inv(s) && q < |s.cons| && Holding(s.cons[q], x) && x !in s.cells
    requires s' == s.(cells := s.cells[x := Skipped], holder := s.holder - {x},
            cons := s.cons[q := s.cons[q].(at := ReadHead)])
    ensures Inv(s') && Grows(s, s')
  {
    assert PlaceOk(s, q, s.cons[q]);
    SkippedQueue(s, s', x);
    HolderKeeps(s, s', q, x);
  }

  lemma SkippedQueue(s: State, s': State, x: Pos)
    requires QueueOk(s) && x in s.holder && x !in s.cells
    requires s' == s.(cells := s.cells[x := Skipped], holder := s.holder - {x}, cons := s'.cons)
    ensures QueueOk(s') && Grows(s, s') && FullCells(s') == FullCells(s)
  {
    SkippedCells(s, x);
  }

  lemma SkippedCells(s: State, x: Pos)
    requires CellsOk(s.segs, s.cells, s.owner, s.holder, s.out) && x in s.holder && x !in s.cells
    ensures CellsOk(s.segs, s.cells[x := Skipped], s.owner, s.holder - {x}, s.out)
  {}

  lemma PopTakeQueue(s: State, s': State, q: nat)
    requires QueueOk(s) && PopTake(s, s', q) && PlaceOk(s, q, s.cons[q])
    ensures QueueOk(s') && Grows(s, s') && FullCells(s') == FullCells(s)
  {}

  lemma PopTakeKeeps(s: State, s': State, q: nat)
    requires Inv(s) && PopTake(s, s', q)
    ensures Inv(s') && Grows(s, s')
  {
    assert PlaceOk(s, q, s.cons[q]);
    var x := Pos(s.cons[q].at.h, s.cons[q].at.i);
    PopTakeQueue(s, s', q);
    HolderKeeps(s, s', q, x);
  }

  // ------------------------------------------------------------ every run

  lemma PushStepKeeps(s: State, s': State, p: nat)
    requires Inv(s) && PushStep(s, s', p)
    ensures Inv(s') && Grows(s, s')
  {
    if items :| PushBegin(s, s', p, items) { PushBeginKeeps(s, s', p, items); }
    else if PushProtect(s, s', p) { PushProtectKeeps(s, s', p); }
    else if PushReserve(s, s', p) { PushReserveKeeps(s, s', p); }
    else if PushFill(s, s', p) { PushFillKeeps(s, s', p); }
    else if PushSkipped(s, s', p) { PushSkippedKeeps(s, s', p); }
    else if PushGiveUp(s, s', p) { PushGiveUpKeeps(s, s', p); }
    else if PushReadNext(s, s', p) { PushReadNextKeeps(s, s', p); }
    else if PushLink(s, s', p) { PushLinkKeeps(s, s', p); }
    else if PushMoveTail(s, s', p) { PushMoveTailKeeps(s, s', p); }
    else { PushEndKeeps(s, s', p); }
  }

  lemma PopStepKeeps(s: State, s': State, q: nat)
    requires Inv(s) && PopStep(s, s', q)
    ensures Inv(s') && Grows(s, s')
  {
    if PopBegin(s, s', q) { PopBeginKeeps(s, s', q); }
    else if PopProtect(s, s', q) { PopProtectKeeps(s, s', q); }
    else if PopReadDeq(s, s', q) { PopReadDeqKeeps(s, s', q); }
    else if PopReadEnq(s, s', q) { PopReadEnqKeeps(s, s', q); }
    else if PopCheckNext(s, s', q) { PopCheckNextKeeps(s, s', q); }
    else if PopClaim(s, s', q) { PopClaimKeeps(s, s', q); }
    else if PopPast(s, s', q) { PopPastKeeps(s, s', q); }
    else if PopAdvanceTail(s, s', q) { PopAdvanceTailKeeps(s, s', q); }
    else if PopAdvanceHead(s, s', q) { PopAdvanceHeadKeeps(s, s', q); }
    else if PopReadState(s, s', q) { PopReadStateKeeps(s, s', q); }
    else if PopLookEnq(s, s', q) { PopLookEnqKeeps(s, s', q); }
    else if PopWait(s, s', q) { PopWaitKeeps(s, s', q); }
    else if PopSkip(s, s', q) { PopSkipKeeps(s, s', q); }
    else { PopTakeKeeps(s, s', q); }
  }

  lemma NextKeeps(s: State, s': State)
    requires Inv(s) && Next(s, s')
    ensures Inv(s') && Grows(s, s')
  {
    var p: nat :| PushStep(s, s', p) || PopStep(s, s', p);
    if PushStep(s, s', p) { PushStepKeeps(s, s', p); } else { PopStepKeeps(s, s', p); }
  }

  lemma {:induction false} RunHolds(run: seq<State>, n: nat)
    requires IsRun(run) && n < |run|
    ensures Inv(run[n])
  {
    if n == 0 {
      InitHolds(run[0]);
    } else {
      RunHolds(run, n - 1);
      NextKeeps(run[n - 1], run[n]);
    }
  }

  lemma RunStep(run: seq<State>, n: nat)
    requires IsRun(run) && 0 < n < |run|
    ensures Grows(run[n - 1], run[n])
  {
    RunHolds(run, n - 1);
    NextKeeps(run[n - 1], run[n]);
  }

  lemma {:induction false} RunGrows(run: seq<State>, i: nat, n: nat)
    requires i <= n < |run| && forall k :: i < k <= n ==> Grows(run[k - 1], run[k])
    ensures Grows(run[i], run[n])
    decreases n
  {
    if i < n {
      RunGrows(run, i, n - 1);
      assert Grows(run[n - 1], run[n]);
    }
  }

  // ------------------------------------------------------- what is promised

  // Cell x was taken by a pop, and before cell y.
  ghost predicate TakenBefore(claims: seq<Pos>, x: Pos, y: Pos) {
    exists i, j :: 0 <= i < j < |claims| && claims[i] == x && claims[j] == y
  }

  // Pops take the cells in their order, missing none.
  lemma TakenInOrder(s: State, x: Pos, y: Pos)
    requires QueueOk(s) && Lt(x, y) && x.idx < SEGMENT && y in s.claims
    ensures TakenBefore(s.claims, x, y)
  {
    assert Claimed(s.segs, y) && Claimed(s.segs, x);
    var i :| 0 <= i < |s.claims| && s.claims[i] == x;
    var j :| 0 <= j < |s.claims| && s.claims[j] == y;
    assert i < j;
  }

  // The push that producer p began at step b is still going at step f.
  ghost predicate SamePush(run: seq<State>, p: nat, b: nat, f: nat) {
    && b < f < |run| && p < |run[b].prods| && run[b].prods[p].Idle?
    && forall i :: b < i <= f ==> p < |run[i].prods| && run[i].prods[p].Pushing?
  }

  // How a step moves the history of producer p and of consumer p.
  ghost predicate Moves(s: State, s': State, p: nat) {
    && |s'.prods| == |s.prods| && |s'.cons| == |s.cons|
    && (At(s, p) && At(s', p) ==> s'.prods[p].before == s.prods[p].before)
    && (p < |s.prods| && s.prods[p].Idle? && At(s', p) ==> s'.prods[p].before == s.finished)
  }

  lemma PushLinkMoves(s: State, s': State, r: nat, p: nat)
    requires PushLink(s, s', r) || PushMoveTail(s, s', r) || PushEnd(s, s', r)
    ensures Moves(s, s', p)
  {}

  lemma PushCellMoves(s: State, s': State, r: nat, p: nat)
    requires PushFill(s, s', r) || PushSkipped(s, s', r) || PushGiveUp(s, s', r)
    ensures Moves(s, s', p)
  {}

  lemma PushMoves(s: State, s': State, r: nat, p: nat)
    requires PushStep(s, s', r)
    ensures Moves(s, s', p)
  {
    if PushLink(s, s', r) || PushMoveTail(s, s', r) || PushEnd(s, s', r) { PushLinkMoves(s, s', r, p); }
    else if PushFill(s, s', r) || PushSkipped(s, s', r) || PushGiveUp(s, s', r) { PushCellMoves(s, s', r, p); }
  }

  lemma PopReadMoves(s: State, s': State, q: nat, p: nat)
    requires PopBegin(s, s', q) || PopProtect(s, s', q) || PopReadDeq(s, s', q) || PopReadEnq(s, s', q)
    ensures Moves(s, s', p)
  {}

  lemma PopSegmentMoves(s: State, s': State, q: nat, p: nat)
    requires PopSegmentStep(s, s', q)
    ensures Moves(s, s', p)
  {
    if PopBegin(s, s', q) || PopProtect(s, s', q) || PopReadDeq(s, s', q) || PopReadEnq(s, s', q) {
      PopReadMoves(s, s', q, p);
    }
  }

  lemma PopCellMoves(s: State, s': State, q: nat, p: nat)
    requires PopCellStep(s, s', q)
    ensures Moves(s, s', p)
  {}

  ghost predicate MovesAt(run: seq<State>, p: nat, f: nat) {
    0 < f < |run| ==> Moves(run[f - 1], run[f], p)
  }

  lemma RunMoves(run: seq<State>, p: nat)
    requires IsRun(run)
    ensures forall f :: MovesAt(run, p, f)
  {
    forall f: nat | 0 < f < |run| ensures MovesAt(run, p, f) {
      var r: nat :| PushStep(run[f - 1], run[f], r) || PopStep(run[f - 1], run[f], r);
      if PushStep(run[f - 1], run[f], r) {
        PushMoves(run[f - 1], run[f], r, p);
      } else if PopSegmentStep(run[f - 1], run[f], r) {
        PopSegmentMoves(run[f - 1], run[f], r, p);
      } else {
        PopCellMoves(run[f - 1], run[f], r, p);
      }
    }
  }

  lemma {:induction false} BeganAfter(run: seq<State>, p: nat, b: nat, f: nat)
    requires (forall i :: MovesAt(run, p, i)) && SamePush(run, p, b, f)
    ensures run[f].prods[p].before == run[b].finished
  {
    assert MovesAt(run, p, f);
    if f > b + 1 {
      BeganAfter(run, p, b, f - 1);
    }
  }

  /** In every run: an element whose push had returned before another push
      began lies below every element of that push, and is taken by a pop before
      any of them. */
  lemma RealTimeOrder(run: seq<State>, p: nat, b: nat, f: nat, n: nat, x: Pos, y: Pos)
    requires IsRun(run) && SamePush(run, p, b, f) && f <= n < |run|
    requires x in run[b].finished && y in run[f].prods[p].mine
    ensures Lt(x, y) && (y in run[n].claims ==> TakenBefore(run[n].claims, x, y))
  {
    RunMoves(run, p);
    BeganAfter(run, p, b, f);
    RunHolds(run, f);
    assert ProducerOk(run[f], p, run[f].prods[p]);
    RunHolds(run, n);
    assert x in run[f].cells && Reserved(run[f].segs, x);
    if y in run[n].claims { TakenInOrder(run[n], x, y); }
  }

  /** In every run: a batch's elements are its items in order, at increasing
      positions whatever cells pops skipped and whatever was pushed again, so
      they are taken in order. */
  lemma BatchOrder(run: seq<State>, p: nat, f: nat, n: nat, r: nat, t: nat)
    requires IsRun(run) && f <= n < |run| && At(run[f], p) && r < t < |run[f].prods[p].mine|
    ensures var b := run[f].prods[p];
            && |b.mine| == b.k <= |b.items| && (b.at.Placed? ==> b.k == |b.items|)
            && b.mine[t] in run[f].cells && run[f].cells[b.mine[t]] == Full(b.items[t])
            && Lt(b.mine[r], b.mine[t])
            && (b.mine[t] in run[n].claims ==> TakenBefore(run[n].claims, b.mine[r], b.mine[t]))
  {
    RunHolds(run, f);
    RunHolds(run, n);
    var b := run[f].prods[p];
    assert ProducerOk(run[f], p, b);
    assert b.mine[r] in b.mine && Reserved(run[f].segs, b.mine[r]);
    if b.mine[t] in run[n].claims { TakenInOrder(run[n], b.mine[r], b.mine[t]); }
  }

  // No element is queued: pops have taken every full cell.
  ghost predicate Drained(s: State) {
    forall x :: x in FullCells(s) ==> x in s.claims
  }

  // And every cell a push has taken.
  ghost predicate CaughtUp(s: State) {
    forall x :: Reserved(s.segs, x) ==> Claimed(s.segs, x)
  }

  // A pop answers empty at this step.
  ghost predicate AnswersEmpty(s: State, s': State, q: nat) {
    (PopCheckNext(s, s', q) || PopPast(s, s', q)) && s'.cons[q].at.Away?
  }

  // The index of the last segment is past its cells.
  lemma PastCaughtUp(s: State, s': State, q: nat)
    requires Inv(s) && PopPast(s, s', q) && s'.cons[q].at.Away?
    ensures CaughtUp(s)
  {
    assert PlaceOk(s, q, s.cons[q]);
    LastCaughtUp(s.segs, s.head, s.tail);
  }

  lemma LastCaughtUp(segs: seq<Segment>, head: nat, tail: nat)
    requires SegmentsOk(segs, head, tail) && head + 1 == |segs|
    requires segs[head].deq >= SEGMENT || segs[head].enq <= segs[head].deq
    ensures forall x :: Reserved(segs, x) ==> Claimed(segs, x)
  {}

  // The index of the last segment has reached its count.
  lemma CountCaughtUp(s: State, s': State, q: nat, h: nat)
    requires Inv(s) && PopReadEnq(s, s', q) && s'.cons[q].at == CheckNext(h) && |s.segs| <= h + 1
    ensures CaughtUp(s)
  {
    assert PlaceOk(s, q, s.cons[q]);
    LastCaughtUp(s.segs, s.head, s.tail);
  }

  // A pop begun at step b is still going at step e.
  ghost predicate SamePop(run: seq<State>, q: nat, b: nat, e: nat) {
    && b < e < |run| && PopBegin(run[b], run[b + 1], q)
    && forall i :: b < i <= e ==> q < |run[i].cons| && !run[i].cons[q].at.Away?
  }

  // A pop that has found the count reached read it in one of its steps.
  ghost predicate Checks(s: State, s': State, q: nat) {
    && |s'.cons| == |s.cons|
    && (q < |s.cons| && s'.cons[q].at.CheckNext? ==> s'.cons[q] == s.cons[q] || PopReadEnq(s, s', q))
  }

  ghost predicate ChecksAt(run: seq<State>, q: nat, i: nat) {
    0 < i < |run| ==> Checks(run[i - 1], run[i], q)
  }

  // A pop that ends other than by handing out an element answers empty.
  ghost predicate EndsWithout(s: State, s': State, q: nat) {
    q < |s.cons| == |s'.cons| && !s.cons[q].at.Away? && !s.cons[q].at.Take? && s'.cons[q].at.Away?
  }

  lemma ReadStepEnds(s: State, s': State, q: nat, r: nat)
    requires PopBegin(s, s', r) || PopProtect(s, s', r) || PopReadDeq(s, s', r) || PopReadEnq(s, s', r)
    ensures Checks(s, s', q) && !EndsWithout(s, s', q)
  {}

  lemma SegmentStepEnds(s: State, s': State, q: nat, r: nat)
    requires PopSegmentStep(s, s', r)
    ensures Checks(s, s', q) && (EndsWithout(s, s', q) ==> AnswersEmpty(s, s', q))
  {
    if PopBegin(s, s', r) || PopProtect(s, s', r) || PopReadDeq(s, s', r) || PopReadEnq(s, s', r) {
      ReadStepEnds(s, s', q, r);
    }
  }

  lemma ClaimStepEnds(s: State, s': State, q: nat, r: nat)
    requires PopClaim(s, s', r) || PopReadState(s, s', r) || PopLookEnq(s, s', r)
    ensures Checks(s, s', q) && !EndsWithout(s, s', q)
  {}

  lemma CellStepEnds(s: State, s': State, q: nat, r: nat)
    requires PopCellStep(s, s', r)
    ensures Checks(s, s', q) && !EndsWithout(s, s', q)
  {
    if PopClaim(s, s', r) || PopReadState(s, s', r) || PopLookEnq(s, s', r) { ClaimStepEnds(s, s', q, r); }
  }

  lemma PushLeavesPops(s: State, s': State, p: nat)
    requires PushStep(s, s', p)
    ensures s'.cons == s.cons
  {}

  lemma PopLeavesPushes(s: State, s': State, q: nat)
    requires PopStep(s, s', q)
    ensures s'.prods == s.prods
  {
    if PopSegmentStep(s, s', q) { SegmentLeavesPushes(s, s', q); }
  }

  lemma SegmentLeavesPushes(s: State, s': State, q: nat)
    requires PopSegmentStep(s, s', q)
    ensures s'.prods == s.prods
  {}

  lemma Ends(s: State, s': State, q: nat)
    requires Next(s, s')
    ensures Checks(s, s', q) && (EndsWithout(s, s', q) ==> AnswersEmpty(s, s', q))
  {
    if p: nat :| PushStep(s, s', p) {
      PushLeavesPops(s, s', p);
    } else {
      var r: nat :| PopStep(s, s', r);
      if PopSegmentStep(s, s', r) { SegmentStepEnds(s, s', q, r); } else { CellStepEnds(s, s', q, r); }
    }
  }

  lemma {:induction false} ReadCount(run: seq<State>, q: nat, b: nat, e: nat) returns (i: nat)
    requires (forall k :: ChecksAt(run, q, k)) && SamePop(run, q, b, e) && run[e].cons[q].at.CheckNext?
    ensures b < i < e && PopReadEnq(run[i], run[i + 1], q) && run[i + 1].cons[q].at == run[e].cons[q].at
    decreases e
  {
    assert run[b + 1].cons[q].at.ReadHead?;
    assert ChecksAt(run, q, e);
    if PopReadEnq(run[e - 1], run[e], q) {
      i := e - 1;
    } else {
      i := ReadCount(run, q, b, e - 1);
    }
  }

  lemma EmptyAtOnce(run: seq<State>, q: nat, b: nat, e: nat) returns (i: nat)
    requires IsRun(run) && SamePop(run, q, b, e) && e + 1 < |run| && EndsWithout(run[e], run[e + 1], q)
    ensures b < i <= e && CaughtUp(run[i])
  {
    RunHolds(run, e);
    Ends(run[e], run[e + 1], q);
    if PopPast(run[e], run[e + 1], q) {
      PastCaughtUp(run[e], run[e + 1], q);
      return e;
    }
    forall k: nat | 0 < k < |run| ensures ChecksAt(run, q, k) { Ends(run[k - 1], run[k], q); }
    i := ReadCount(run, q, b, e);
    RunHolds(run, i);
    forall k | i < k <= e ensures Grows(run[k - 1], run[k]) { RunStep(run, k); }
    RunGrows(run, i, e);
    CountCaughtUp(run[i], run[i + 1], q, run[e].cons[q].at.h);
  }

  /** In every run: a pop ends without an element only if at one instant inside
      it every full cell had been taken by a pop. So has every element in a cell
      before it began, at its end. */
  lemma EmptyAnswer(run: seq<State>, q: nat, b: nat, e: nat)
    requires IsRun(run) && SamePop(run, q, b, e) && e + 1 < |run| && EndsWithout(run[e], run[e + 1], q)
    ensures exists i :: b < i <= e && Drained(run[i])
    ensures forall x :: x in FullCells(run[b]) || x in run[b].finished ==> x in run[e].claims
  {
    var i := EmptyAtOnce(run, q, b, e);
    RunHolds(run, b);
    RunHolds(run, i);
    assert Drained(run[i]);
    forall k | b < k <= e ensures Grows(run[k - 1], run[k]) { RunStep(run, k); }
    RunGrows(run, b, i);
    RunGrows(run, i, e);
    forall x | x in FullCells(run[b]) || x in run[b].finished ensures x in run[e].claims {
      assert x in FullCells(run[b]) && x in FullCells(run[i]);
    }
  }

  /** In every state of every run: an element pushed is in exactly one place,
      queued, held by the one pop that took its cell, or handed out; and no pop
      hands out what another has. */
  lemma EachOnce(run: seq<State>, n: nat, x: Pos)
    requires IsRun(run) && n < |run| && x in run[n].cells && run[n].cells[x].Full?
    ensures var s := run[n];
            && (x in s.claims <==> x in s.holder || x in s.out) && !(x in s.holder && x in s.out)
            && (x in s.holder ==> s.holder[x] < |s.cons| && Holding(s.cons[s.holder[x]], x))
            && forall q, r :: 0 <= q < r < |s.cons| ==> !(Holding(s.cons[q], x) && Holding(s.cons[r], x))
    ensures forall m :: n <= m < |run| ==> x in run[m].cells && run[m].cells[x] == run[n].cells[x]
  {
    RunHolds(run, n);
    var s := run[n];
    forall q | 0 <= q < |s.cons| && Holding(s.cons[q], x) ensures x in s.holder && s.holder[x] == q {
      assert PlaceOk(s, q, s.cons[q]);
    }
    forall m | n <= m < |run| ensures x in run[m].cells && run[m].cells[x] == run[n].cells[x] {
      forall k | n < k <= m ensures Grows(run[k - 1], run[k]) { RunStep(run, k); }
      RunGrows(run, n, m);
    }
  }

  /** A pop waits for a cell only while a push that has taken it is on its way
      to fill it or give it up. */
  lemma WaitsForPush(run: seq<State>, n: nat, q: nat)
    requires IsRun(run) && n < |run| && q < |run[n].cons| && run[n].cons[q].at.Wait?
    requires Pos(run[n].cons[q].at.h, run[n].cons[q].at.i) !in run[n].cells
    ensures exists p :: 0 <= p < |run[n].prods| && Owes(run[n].prods[p], Pos(run[n].cons[q].at.h, run[n].cons[q].at.i))
  {
    RunHolds(run, n);
    var s := run[n];
    var x := Pos(s.cons[q].at.h, s.cons[q].at.i);
    assert PlaceOk(s, q, s.cons[q]);
    assert Claimed(s.segs, x) && Reserved(s.segs, x);
    assert Owes(s.prods[s.owner[x]], x);
  }

  /** The destructor, from the head segment's index on, visits exactly the
      elements no pop has taken. */
  lemma DestructorVisitsQueued(run: seq<State>, n: nat, x: Pos)
    requires IsRun(run) && n < |run|
    ensures var s := run[n];
            && s.head < |s.segs|
            && (x in s.cells && s.cells[x].Full? && !Lt(x, Pos(s.head, s.segs[s.head].deq)) <==>
                x in s.cells && s.cells[x].Full? && x !in s.claims)
  {
    RunHolds(run, n);
  }

  /** The segment a pop moves the head past, and retires: every cell of it has
      been taken, and pushes no longer find it through the tail. */
  lemma RetiredIsDrained(run: seq<State>, n: nat, q: nat)
    requires IsRun(run) && n + 1 < |run| && PopAdvanceHead(run[n], run[n + 1], q) && run[n].head == run[n].cons[q].at.h
    ensures run[n].head < run[n].tail < |run[n].segs|
    ensures forall x: Pos :: x.seg == run[n].head && x.idx < SEGMENT ==> x in run[n].claims
  {
    RunHolds(run, n);
    assert PlaceOk(run[n], q, run[n].cons[q]);
  }
}
