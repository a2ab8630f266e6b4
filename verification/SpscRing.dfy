/** The single-producer single-consumer queue (runtime/spsc_ring.hpp): a cycle
    of blocks that the producer reuses when the consumer has left them and
    grows when it has not. One step is one access to memory the two sides
    share; what only one side touches goes with its next such access. */
module SpscRing {
  import opened Basics

  // kSlots.
  const K: Positive

  type Elem(!new)
  datatype Cell = Raw | Built(e: Elem)
  datatype Block = Block(next: nat, end: nat, slots: seq<Cell>)

  // The producer: idle, about to read pop_pub_, or about to insert a block.
  datatype Producing = Idle | Reading | Inserting
  datatype Producer = Producer(blk: nat, off: nat, count: nat, cachedPop: nat, at: Producing)

  // The consumer: outside, about to compare counts, about to take, about to
  // store pop_pub_, or with the element in its taker.
  // lend: the pop is one that lends its element out.
  datatype Consuming = Outside | Checking(lend: bool) | Taking(lend: bool) | Storing(lend: bool) | InTaker
  datatype Consumer = Consumer(blk: nat, off: nat, count: nat, cachedPush: nat, at: Consuming)

  // A slot: block and offset.
  datatype Where = Nowhere | At(blk: nat, off: nat)

  /** inUse: the slot of the element lent out or in its taker. History: pushed
      and popped in order; ring, the blocks from the producer's next round to
      its own; high, the most elements pushed and not yet announced left. */
  datatype State = State(blocks: seq<Block>, p: Producer, c: Consumer, pushPub: nat, popPub: nat, inUse: Where,
                         pushed: seq<Elem>, popped: seq<Cell>, ring: seq<nat>, high: nat)

  function Fresh(next: nat, end: nat): Block {
    Block(next, end, seq(K, (i: nat) => Raw))
  }

  // Block 0 is a, block 1 is b.
  ghost predicate Init(s: State) {
    && s.blocks == [Fresh(1, K), Fresh(0, 0)]
    && s.p == Producer(0, 0, 0, 0, Idle) && s.c == Consumer(0, 0, 0, 0, Outside)
    && s.pushPub == 0 && s.popPub == 0 && s.inUse == Nowhere && s.pushed == [] && s.popped == []
    && s.ring == [1, 0] && s.high == 0
  }

  // -------------------------------------------------------------- producer

  function SetSlot(bs: seq<Block>, b: nat, i: nat, v: Cell): seq<Block>
    requires b < |bs| && i < |bs[b].slots|
  {
    bs[b := bs[b].(slots := bs[b].slots[i := v])]
  }

  function Max(a: nat, b: int): nat {
    if b < a then a else b
  }

  ghost predicate Push(s: State, s': State, e: Elem) {
    && s.p.at.Idle? && s.p.off < K && s.p.blk < |s.blocks| && s.p.off < |s.blocks[s.p.blk].slots|
    && s' == s.(blocks := SetSlot(s.blocks, s.p.blk, s.p.off, Built(e)),
                p := s.p.(off := s.p.off + 1, count := s.p.count + 1), pushed := s.pushed + [e],
                high := Max(s.high, s.p.count + 1 - s.popPub))
  }

  ghost predicate Publish(s: State, s': State) {
    s.p.at.Idle? && s' == s.(pushPub := s.p.count)
  }

  // The producer moves on to its next block, drained.
  ghost predicate Reuse(s: State, s': State, cand: nat, cachedPop: nat) {
    && cand < |s.blocks| && |s.ring| > 0
    && s' == s.(blocks := s.blocks[cand := s.blocks[cand].(end := s.p.count + K)],
                p := Producer(cand, 0, s.p.count, cachedPop, Idle), ring := s.ring[1..] + [s.ring[0]])
  }

  ghost predicate TurnOver(s: State, s': State) {
    && s.p.at.Idle? && s.p.off == K && s.p.blk < |s.blocks|
    && var cand := s.blocks[s.p.blk].next;
       && cand < |s.blocks|
       && if s.blocks[cand].end <= s.p.cachedPop then Reuse(s, s', cand, s.p.cachedPop)
          else s' == s.(p := s.p.(at := Reading))
  }

  ghost predicate ReadPop(s: State, s': State) {
    && s.p.at.Reading? && s.p.blk < |s.blocks|
    && var cand := s.blocks[s.p.blk].next;
       && cand < |s.blocks|
       && if s.blocks[cand].end <= s.popPub then Reuse(s, s', cand, s.popPub)
          else s' == s.(p := s.p.(cachedPop := s.popPub, at := Inserting))
  }

  ghost predicate Insert(s: State, s': State) {
    && s.p.at.Inserting? && s.p.blk < |s.blocks|
    && var cand, nb := s.blocks[s.p.blk].next, |s.blocks|;
       s' == s.(blocks := s.blocks[s.p.blk := s.blocks[s.p.blk].(next := nb)] + [Fresh(cand, s.p.count + K)],
                p := Producer(nb, 0, s.p.count, s.p.cachedPop, Idle), ring := s.ring + [nb])
  }

  // -------------------------------------------------------------- consumer

  // The element in use is destroyed.
  function Released(bs: seq<Block>, w: Where): seq<Block> {
    if w.At? && w.blk < |bs| && w.off < |bs[w.blk].slots| then SetSlot(bs, w.blk, w.off, Raw) else bs
  }

  // release_lent.
  ghost predicate BeginPop(s: State, s': State, lend: bool) {
    && s.c.at.Outside?
    && s' == s.(blocks := Released(s.blocks, s.inUse), inUse := Nowhere, c := s.c.(at := Checking(lend)))
  }

  // Empty, or not. With elements cached there is no access.
  ghost predicate Check(s: State, s': State) {
    && s.c.at.Checking?
    && if s.c.count != s.c.cachedPush then s' == s.(c := s.c.(at := Taking(s.c.at.lend)))
       else s' == s.(c := s.c.(cachedPush := s.pushPub,
                               at := if s.c.count == s.pushPub then Outside else Taking(s.c.at.lend)))
  }

  // slip: the count may be read again, any number of times.
  ghost predicate Slip(s: State, s': State) {
    s.c.at.Taking? && s' == s.(c := s.c.(cachedPush := s.pushPub))
  }

  ghost predicate LeaveBlock(s: State, s': State) {
    && s.c.at.Taking? && s.c.off == K && s.c.blk < |s.blocks|
    && s' == s.(c := s.c.(blk := s.blocks[s.c.blk].next, off := 0, at := Storing(s.c.at.lend)))
  }

  ghost predicate StorePop(s: State, s': State) {
    s.c.at.Storing? && s' == s.(popPub := s.c.count, c := s.c.(at := Taking(s.c.at.lend)))
  }

  // The next element, lent out (try_pop_borrow) or given to a taker (consume).
  ghost predicate Take(s: State, s': State) {
    && s.c.at.Taking? && s.c.off < K && s.c.blk < |s.blocks| && s.c.off < |s.blocks[s.c.blk].slots|
    && s' == s.(inUse := At(s.c.blk, s.c.off), popped := s.popped + [s.blocks[s.c.blk].slots[s.c.off]],
                c := s.c.(off := s.c.off + 1, count := s.c.count + 1, at := if s.c.at.lend then Outside else InTaker))
  }

  ghost predicate EndTaker(s: State, s': State) {
    s.c.at.InTaker? && s' == s.(blocks := Released(s.blocks, s.inUse), inUse := Nowhere, c := s.c.(at := Outside))
  }

  ghost predicate Produces(s: State, s': State) {
    (exists e :: Push(s, s', e)) || Publish(s, s') || TurnOver(s, s') || ReadPop(s, s') || Insert(s, s')
  }

  ghost predicate Consumes(s: State, s': State) {
    || (exists lend :: BeginPop(s, s', lend)) || Check(s, s') || Slip(s, s') || LeaveBlock(s, s') || StorePop(s, s')
    || Take(s, s') || EndTaker(s, s')
  }

  ghost predicate Next(s: State, s': State) {
    Produces(s, s') || Consumes(s, s')
  }

  ghost predicate IsRun(run: seq<State>) {
    && |run| > 0 && Init(run[0])
    && forall i :: 0 <= i < |run| - 1 ==> Next(run[i], run[i + 1])
  }

  // ------------------------------------------------------------- invariant

  // From the producer's next block round to its own, each leads to the next
  // and ends K further; all blocks are there, each once.
  ghost predicate RingOk(bs: seq<Block>, ring: seq<nat>) {
    && |ring| == |bs| >= 2
    && (forall i :: 0 <= i < |ring| ==> ring[i] < |bs|)
    && (forall i, j :: 0 <= i < j < |ring| ==> ring[i] != ring[j])
    && (forall b :: 0 <= b < |bs| ==> b in ring)
    && (forall i :: 0 <= i < |ring| - 1 ==>
          bs[ring[i]].next == ring[i + 1] && bs[ring[i + 1]].end == bs[ring[i]].end + K)
    && bs[ring[|ring| - 1]].next == ring[0]
  }

  // What slot i of a block that ends at `end` holds: element end - K + i, while
  // it is pushed and not yet released.
  function Content(pushed: seq<Elem>, released: nat, m: int): Cell {
    if released <= m < |pushed| then Built(pushed[m]) else Raw
  }

  ghost predicate Filled(bs: seq<Block>, pushed: seq<Elem>, released: nat) {
    forall b :: 0 <= b < |bs| ==>
      |bs[b].slots| == K && forall i :: 0 <= i < K ==> bs[b].slots[i] == Content(pushed, released, bs[b].end - K + i)
  }

  function ReleasedCount(c: Consumer, inUse: Where): int {
    if inUse.At? then c.count - 1 else c.count
  }

  ghost predicate ProducerOk(bs: seq<Block>, ring: seq<nat>, p: Producer, popPub: nat) {
    && p.blk < |bs| && |ring| > 0 && p.blk == ring[|ring| - 1]
    && p.off <= K && bs[p.blk].end == p.count - p.off + K && p.cachedPop <= popPub
    && (!p.at.Idle? ==> p.off == K && bs[p.blk].next < |bs| && bs[bs[p.blk].next].end > p.cachedPop)
  }

  ghost predicate ConsumerOk(bs: seq<Block>, c: Consumer, inUse: Where, popPub: nat, pushPub: nat) {
    && c.blk < |bs| && c.off <= K && bs[c.blk].end == c.count - c.off + K
    && popPub <= c.count - c.off && c.count <= c.cachedPush <= pushPub
    && (c.at.Taking? || c.at.Storing? ==> c.count < c.cachedPush)
    && (c.at.Storing? ==> c.off == 0)
    && (inUse.At? ==> c.off >= 1 && inUse == At(c.blk, c.off - 1) && (c.at.Outside? || c.at.InTaker?))
  }

  ghost predicate Inv(s: State) {
    && RingOk(s.blocks, s.ring)
    && ProducerOk(s.blocks, s.ring, s.p, s.popPub)
    && ConsumerOk(s.blocks, s.c, s.inUse, s.popPub, s.pushPub)
    && s.pushPub <= s.p.count == |s.pushed|
    && ReleasedCount(s.c, s.inUse) >= 0 && Filled(s.blocks, s.pushed, ReleasedCount(s.c, s.inUse))
    && |s.popped| == s.c.count && (forall k :: 0 <= k < |s.popped| ==> s.popped[k] == Built(s.pushed[k]))
    && s.p.count - s.popPub <= s.high && (s.p.at.Inserting? ==> s.p.count - s.p.cachedPop <= s.high)
  }

  lemma InitHolds(s: State)
    requires Init(s)
    ensures Inv(s)
  {}

  // ------------------------------------------------- steps keep the invariant

  lemma {:induction false} EndsApart(bs: seq<Block>, ring: seq<nat>, i: nat, j: nat)
    requires RingOk(bs, ring) && i < j < |ring|
    ensures bs[ring[i]].end + K <= bs[ring[j]].end
  {
    if i + 1 < j { EndsApart(bs, ring, i, j - 1); }
    assert bs[ring[j - 1]].end + K == bs[ring[j - 1 + 1]].end;
  }

  // Two blocks never hold elements of the same numbers.
  lemma OneBlock(bs: seq<Block>, ring: seq<nat>, a: nat, b: nat)
    requires RingOk(bs, ring) && a < |bs| && b < |bs| && a != b
    ensures bs[a].end + K <= bs[b].end || bs[b].end + K <= bs[a].end
  {
    assert a in ring && b in ring;
    var i :| 0 <= i < |ring| && ring[i] == a;
    var j :| 0 <= j < |ring| && ring[j] == b;
    if i < j { EndsApart(bs, ring, i, j); } else { EndsApart(bs, ring, j, i); }
  }

  lemma PushFilled(s: State, s': State, e: Elem)
    requires Inv(s) && Push(s, s', e)
    ensures Filled(s'.blocks, s'.pushed, ReleasedCount(s.c, s.inUse))
    ensures s.blocks[s.p.blk].slots[s.p.off] == Raw
  {
    forall b | 0 <= b < |s.blocks| && b != s.p.blk
      ensures forall i :: 0 <= i < K ==>
              s'.blocks[b].slots[i] == Content(s'.pushed, ReleasedCount(s.c, s.inUse), s.blocks[b].end - K + i)
    {
      OneBlock(s.blocks, s.ring, b, s.p.blk);
    }
  }

  lemma PushKeeps(s: State, s': State, e: Elem)
    requires Inv(s) && Push(s, s', e)
    ensures Inv(s')
  {
    PushFilled(s, s', e);
  }

  lemma PublishKeeps(s: State, s': State)
    requires Inv(s) && Publish(s, s')
    ensures Inv(s')
  {}

  lemma Rotates(bs: seq<Block>, ring: seq<nat>, end: nat)
    requires RingOk(bs, ring) && end == bs[ring[|ring| - 1]].end + K
    ensures RingOk(bs[ring[0] := bs[ring[0]].(end := end)], ring[1..] + [ring[0]])
  {
    var bs', ring', n := bs[ring[0] := bs[ring[0]].(end := end)], ring[1..] + [ring[0]], |ring|;
    assert ring'[n - 1] == ring[0] && forall i :: 0 <= i < n - 1 ==> ring'[i] == ring[i + 1] != ring[0];
    forall i | 0 <= i < n - 1
      ensures bs'[ring'[i]].next == ring'[i + 1] && bs'[ring'[i + 1]].end == bs'[ring'[i]].end + K
    {
      if i + 1 < n - 1 { assert bs[ring[i + 1]].next == ring[i + 1 + 1]; }
    }
    forall b | 0 <= b < |bs| ensures b in ring' {
      assert b in ring;
      var i :| 0 <= i < n && ring[i] == b;
      assert ring'[if i == 0 then n - 1 else i - 1] == b;
    }
  }

  lemma ReuseFilled(s: State, s': State, cachedPop: nat)
    requires Inv(s) && cachedPop <= s.popPub
    requires s.blocks[s.ring[0]].end <= cachedPop && Reuse(s, s', s.ring[0], cachedPop)
    ensures Filled(s'.blocks, s'.pushed, ReleasedCount(s'.c, s'.inUse)) && s.ring[0] != s.c.blk
  {}

  lemma ReuseKeeps(s: State, s': State, cachedPop: nat)
    requires Inv(s) && s.p.off == K && s.p.cachedPop <= cachedPop <= s.popPub
    requires s.blocks[s.ring[0]].end <= cachedPop && Reuse(s, s', s.ring[0], cachedPop)
    ensures Inv(s')
  {
    Rotates(s.blocks, s.ring, s.p.count + K);
    ReuseFilled(s, s', cachedPop);
  }

  lemma GrowsChain(bs: seq<Block>, ring: seq<nat>, end: nat)
    requires RingOk(bs, ring) && end == bs[ring[|ring| - 1]].end + K
    ensures var last := ring[|ring| - 1];
            var bs', ring' := bs[last := bs[last].(next := |bs|)] + [Fresh(ring[0], end)], ring + [|bs|];
            forall i :: 0 <= i < |ring'| - 1 ==>
              bs'[ring'[i]].next == ring'[i + 1] && bs'[ring'[i + 1]].end == bs'[ring'[i]].end + K
  {
    var last := ring[|ring| - 1];
    var bs', ring' := bs[last := bs[last].(next := |bs|)] + [Fresh(ring[0], end)], ring + [|bs|];
    forall i | 0 <= i < |ring'| - 1
      ensures bs'[ring'[i]].next == ring'[i + 1] && bs'[ring'[i + 1]].end == bs'[ring'[i]].end + K
    {
      if i < |ring| - 1 { assert ring[i] != last; }
    }
  }

  lemma Grows(bs: seq<Block>, ring: seq<nat>, end: nat)
    requires RingOk(bs, ring) && end == bs[ring[|ring| - 1]].end + K
    ensures var last := ring[|ring| - 1];
            RingOk(bs[last := bs[last].(next := |bs|)] + [Fresh(ring[0], end)], ring + [|bs|])
  {
    var ring', n := ring + [|bs|], |ring|;
    GrowsChain(bs, ring, end);
    forall b | 0 <= b < |bs| + 1 ensures b in ring' {
      if b < |bs| {
        assert b in ring;
        var i :| 0 <= i < n && ring[i] == b;
        assert ring'[i] == b;
      } else {
        assert ring'[n] == b;
      }
    }
  }

  lemma InsertFilled(s: State, s': State)
    requires Inv(s) && Insert(s, s')
    ensures Filled(s'.blocks, s'.pushed, ReleasedCount(s'.c, s'.inUse))
  {}

  lemma TurnOverKeeps(s: State, s': State)
    requires Inv(s) && TurnOver(s, s')
    ensures Inv(s')
  {
    if s.blocks[s.ring[0]].end <= s.p.cachedPop { ReuseKeeps(s, s', s.p.cachedPop); }
  }

  lemma ReadPopKeeps(s: State, s': State)
    requires Inv(s) && ReadPop(s, s')
    ensures Inv(s')
  {
    if s.blocks[s.ring[0]].end <= s.popPub { ReuseKeeps(s, s', s.popPub); }
  }

  lemma InsertKeeps(s: State, s': State)
    requires Inv(s) && Insert(s, s')
    ensures Inv(s')
  {
    Grows(s.blocks, s.ring, s.p.count + K);
    InsertFilled(s, s');
    assert ProducerOk(s'.blocks, s'.ring, s'.p, s'.popPub);
    assert ConsumerOk(s'.blocks, s'.c, s'.inUse, s'.popPub, s'.pushPub);
  }

  lemma ReleaseFilled(s: State)
    requires Inv(s)
    ensures Filled(Released(s.blocks, s.inUse), s.pushed, s.c.count)
  {
    if s.inUse.At? {
      forall b | 0 <= b < |s.blocks| && b != s.c.blk
        ensures forall i :: 0 <= i < K ==> s.blocks[b].slots[i] == Content(s.pushed, s.c.count, s.blocks[b].end - K + i)
      {
        OneBlock(s.blocks, s.ring, b, s.c.blk);
      }
    }
  }

  lemma ReleaseRing(s: State)
    requires Inv(s)
    ensures var bs := Released(s.blocks, s.inUse);
            && RingOk(bs, s.ring) && ProducerOk(bs, s.ring, s.p, s.popPub)
            && |bs| == |s.blocks| && bs[s.c.blk].end == s.blocks[s.c.blk].end
  {}

  lemma ReleaseKeeps(s: State, s': State, at: Consuming)
    requires Inv(s) && (s.c.at.Outside? || s.c.at.InTaker?) && (at.Outside? || at.Checking?)
    requires s' == s.(blocks := Released(s.blocks, s.inUse), inUse := Nowhere, c := s.c.(at := at))
    ensures Inv(s')
  {
    ReleaseRing(s);
    ReleaseFilled(s);
  }

  lemma BeginPopKeeps(s: State, s': State, lend: bool)
    requires Inv(s) && BeginPop(s, s', lend)
    ensures Inv(s')
  {
    ReleaseKeeps(s, s', Checking(lend));
  }

  lemma EndTakerKeeps(s: State, s': State)
    requires Inv(s) && EndTaker(s, s')
    ensures Inv(s')
  {
    ReleaseKeeps(s, s', Outside);
  }

  lemma CheckKeeps(s: State, s': State)
    requires Inv(s) && (Check(s, s') || Slip(s, s'))
    ensures Inv(s')
  {}

  lemma StorePopKeeps(s: State, s': State)
    requires Inv(s) && StorePop(s, s')
    ensures Inv(s')
  {}

  lemma LeaveBlockKeeps(s: State, s': State)
    requires Inv(s) && LeaveBlock(s, s')
    ensures Inv(s')
  {
    assert s.c.blk in s.ring;
    var i :| 0 <= i < |s.ring| && s.ring[i] == s.c.blk;
    assert s.blocks[s.ring[i]].next == s.ring[i + 1] && s.ring[i + 1] < |s.blocks|;
  }

  lemma TakeKeeps(s: State, s': State)
    requires Inv(s) && Take(s, s')
    ensures Inv(s')
  {}

  lemma NextKeeps(s: State, s': State)
    requires Inv(s) && Next(s, s')
    ensures Inv(s')
  {
    if {
      case exists e :: Push(s, s', e) =>
        var e :| Push(s, s', e);
        PushKeeps(s, s', e);
      case Publish(s, s') => PublishKeeps(s, s');
      case TurnOver(s, s') => TurnOverKeeps(s, s');
      case ReadPop(s, s') => ReadPopKeeps(s, s');
      case Insert(s, s') => InsertKeeps(s, s');
      case exists lend :: BeginPop(s, s', lend) =>
        var lend :| BeginPop(s, s', lend);
        BeginPopKeeps(s, s', lend);
      case Check(s, s') || Slip(s, s') => CheckKeeps(s, s');
      case StorePop(s, s') => StorePopKeeps(s, s');
      case LeaveBlock(s, s') => LeaveBlockKeeps(s, s');
      case Take(s, s') => TakeKeeps(s, s');
      case EndTaker(s, s') => EndTakerKeeps(s, s');
    }
  }

  lemma {:induction false} RunHolds(run: seq<State>, i: nat)
    requires IsRun(run) && i < |run|
    ensures Inv(run[i])
  {
    if i == 0 {
      InitHolds(run[0]);
    } else {
      RunHolds(run, i - 1);
      assert Next(run[i - 1], run[i]);
      NextKeeps(run[i - 1], run[i]);
    }
  }

  // ------------------------------------------------------------- main results

  // A first-in first-out queue: in every state what was popped is a prefix of
  // what was published, which is a prefix of what was pushed.
  lemma PoppedIsPrefix(run: seq<State>, i: nat)
    requires IsRun(run) && i < |run|
    ensures |run[i].popped| <= run[i].pushPub <= |run[i].pushed|
    ensures forall k :: 0 <= k < |run[i].popped| ==> run[i].popped[k] == Built(run[i].pushed[k])
  {
    RunHolds(run, i);
  }

  // A pop answers empty only if, as it read the count, everything published
  // had been popped; one that goes on takes a published element.
  lemma EmptyAnswer(run: seq<State>, i: nat)
    requires IsRun(run) && i + 1 < |run| && Check(run[i], run[i + 1])
    ensures run[i + 1].c.at.Outside? ==> |run[i].popped| == run[i].pushPub
    ensures run[i + 1].c.at.Taking? ==> |run[i].popped| < run[i].pushPub
  {
    RunHolds(run, i);
    RunHolds(run, i + 1);
  }

  // The producer publishes: all it has pushed is then published.
  lemma PublishesAll(run: seq<State>, i: nat)
    requires IsRun(run) && i + 1 < |run| && Publish(run[i], run[i + 1])
    ensures run[i + 1].pushPub == |run[i].pushed| == |run[i + 1].pushed|
  {
    RunHolds(run, i);
  }

  ghost predicate ShowsAt(run: seq<State>, k: nat)
    requires k + 1 < |run|
  {
    run[k].pushPub <= run[k + 1].pushPub
  }

  lemma RunShows(run: seq<State>, k: nat)
    requires IsRun(run) && k + 1 < |run|
    ensures ShowsAt(run, k)
  {
    RunHolds(run, k);
    assert Next(run[k], run[k + 1]);
  }

  lemma {:induction false} ShowsOn(run: seq<State>, i: nat, j: nat)
    requires i <= j < |run| && forall k: nat :: k + 1 < |run| ==> ShowsAt(run, k)
    ensures run[i].pushPub <= run[j].pushPub
    decreases j
  {
    if i < j {
      ShowsOn(run, i, j - 1);
      assert ShowsAt(run, j - 1);
    }
  }

  /** A pop answers empty only if every element pushed before a publish that came
      before its answer has been popped: so every element of a push that had
      returned before the pop began. */
  lemma EmptyMeansPopped(run: seq<State>, i: nat, e: nat)
    requires IsRun(run) && i < e && e + 1 < |run| && Publish(run[i], run[i + 1])
    requires Check(run[e], run[e + 1]) && run[e + 1].c.at.Outside?
    ensures |run[i].pushed| <= |run[e].popped|
  {
    PublishesAll(run, i);
    EmptyAnswer(run, e);
    forall k: nat | k + 1 < |run| ensures ShowsAt(run, k) { RunShows(run, k); }
    ShowsOn(run, i + 1, e);
  }

  // A push builds its element in raw storage: never over one unread, lent out
  // or in its taker. A block about to be reused holds nothing.
  lemma PushIntoRaw(run: seq<State>, i: nat, e: Elem)
    requires IsRun(run) && i + 1 < |run| && Push(run[i], run[i + 1], e)
    ensures run[i].blocks[run[i].p.blk].slots[run[i].p.off] == Raw
    ensures At(run[i].p.blk, run[i].p.off) != run[i].inUse
  {
    RunHolds(run, i);
    PushFilled(run[i], run[i + 1], e);
  }

  // A step that ends the use of the element lent out or in its taker.
  ghost predicate EndsUse(s: State, s': State) {
    (exists lend :: BeginPop(s, s', lend)) || EndTaker(s, s')
  }

  // Step k of the run leaves the use as it is, if there is one.
  ghost predicate KeptAt(run: seq<State>, k: nat)
    requires k + 1 < |run|
  {
    run[k].inUse.At? ==> run[k + 1].inUse == run[k].inUse && run[k + 1].popped == run[k].popped
  }

  lemma UseGoesOn(s: State, s': State)
    requires Inv(s) && Next(s, s') && s.inUse.At? && !EndsUse(s, s')
    ensures s'.inUse == s.inUse && s'.popped == s.popped
  {}

  lemma LentStep(run: seq<State>, k: nat)
    requires IsRun(run) && k + 1 < |run| && !EndsUse(run[k], run[k + 1])
    ensures KeptAt(run, k)
  {
    RunHolds(run, k);
    if run[k].inUse.At? { UseGoesOn(run[k], run[k + 1]); }
  }

  lemma {:induction false} LoanKept(run: seq<State>, i: nat, j: nat)
    requires i <= j < |run| && run[i].inUse.At? && forall k :: i <= k < j ==> KeptAt(run, k)
    ensures run[j].inUse == run[i].inUse && run[j].popped == run[i].popped
    decreases j
  {
    if i < j {
      LoanKept(run, i, j - 1);
      assert KeptAt(run, j - 1);
    }
  }

  // The element in use is the last popped, in its slot.
  lemma InItsSlot(s: State)
    requires Inv(s) && s.inUse.At?
    ensures |s.popped| > 0 && s.inUse.blk < |s.blocks| && s.inUse.off < |s.blocks[s.inUse.blk].slots|
    ensures s.blocks[s.inUse.blk].slots[s.inUse.off] == s.popped[|s.popped| - 1]
  {}

  // Only the next pop ends a loan, and only its taker's return the use of an
  // element given to one: until then, whatever the producer does, the element
  // is in its slot, unchanged.
  lemma LentStays(run: seq<State>, i: nat, j: nat)
    requires IsRun(run) && i <= j < |run| && run[i].inUse.At?
    requires forall k :: i <= k < j ==> !EndsUse(run[k], run[k + 1])
    ensures run[j].inUse == run[i].inUse && run[j].popped == run[i].popped && |run[i].popped| > 0
    ensures run[j].inUse.blk < |run[j].blocks| && run[j].inUse.off < |run[j].blocks[run[j].inUse.blk].slots|
    ensures run[j].blocks[run[j].inUse.blk].slots[run[j].inUse.off] == run[i].popped[|run[i].popped| - 1]
  {
    forall k: nat | i <= k < j ensures KeptAt(run, k) { LentStep(run, k); }
    LoanKept(run, i, j);
    RunHolds(run, j);
    InItsSlot(run[j]);
  }

  // It is in a pop that gives its element to a taker.
  predicate Gives(at: Consuming) {
    match at
    case Outside => false
    case Checking(lend) => !lend
    case Taking(lend) => !lend
    case Storing(lend) => !lend
    case InTaker => true
  }

  // A pop that gives its element to a taker keeps its kind to its end, and leaves
  // nothing in use; one that lends hands its element to no taker.
  lemma TakerLeavesNone(run: seq<State>, k: nat)
    requires IsRun(run) && k + 1 < |run| && !run[k].c.at.Outside?
    ensures Gives(run[k].c.at) && run[k + 1].c.at.Outside? ==> run[k + 1].inUse == Nowhere
    ensures !run[k + 1].c.at.Outside? ==> (Gives(run[k + 1].c.at) <==> Gives(run[k].c.at))
  {
    RunHolds(run, k);
    assert Next(run[k], run[k + 1]);
  }

  // The consumer reads the next pointer of a block only once the producer has
  // left the block: an insertion never changes what it is about to read.
  lemma LeavesOtherBlock(run: seq<State>, i: nat)
    requires IsRun(run) && i + 1 < |run| && LeaveBlock(run[i], run[i + 1])
    ensures run[i].c.blk != run[i].p.blk
  {
    RunHolds(run, i);
  }

  // What the consumer has announced is what it has left: the elements of the
  // blocks before its own, from the store on.
  ghost predicate Announced(s: State) {
    s.popPub + s.c.off + (if s.c.at.Storing? then K else 0) == s.c.count
  }

  ghost predicate AnnouncedAt(run: seq<State>, k: nat)
    requires k + 1 < |run|
  {
    Announced(run[k]) ==> Announced(run[k + 1])
  }

  lemma RunAnnounces(run: seq<State>, k: nat)
    requires IsRun(run) && k + 1 < |run|
    ensures AnnouncedAt(run, k)
  {
    RunHolds(run, k);
    assert Next(run[k], run[k + 1]);
  }

  lemma {:induction false} AnnouncedOn(run: seq<State>, n: nat)
    requires n < |run| && Init(run[0]) && forall k: nat :: k + 1 < |run| ==> AnnouncedAt(run, k)
    ensures Announced(run[n])
  {
    if n > 0 {
      AnnouncedOn(run, n - 1);
      assert AnnouncedAt(run, n - 1);
    }
  }

  /** In every state of every run the count the producer reads is that of the
      elements in the blocks the consumer has left, the last of them while it is
      about to say so excepted. */
  lemma AnnouncesLeft(run: seq<State>, n: nat)
    requires IsRun(run) && n < |run|
    ensures Announced(run[n])
  {
    forall k: nat | k + 1 < |run| ensures AnnouncedAt(run, k) { RunAnnounces(run, k); }
    AnnouncedOn(run, n);
  }

  // ----------------------------------------------------------------- memory

  lemma {:induction false} EndsSpan(bs: seq<Block>, ring: seq<nat>, j: nat)
    requires RingOk(bs, ring) && j < |ring|
    ensures bs[ring[j]].end == bs[ring[0]].end + j * K
  {
    if j > 0 {
      EndsSpan(bs, ring, j - 1);
      assert bs[ring[j - 1 + 1]].end == bs[ring[j - 1]].end + K;
      assert j * K == (j - 1) * K + K;
    }
  }

  lemma InsertHigh(s: State, s': State)
    requires Inv(s) && Insert(s, s')
    ensures |s'.blocks| == |s.blocks| + 1 && (|s.blocks| - 1) * K < s'.high
  {
    EndsSpan(s.blocks, s.ring, |s.ring| - 1);
  }

  lemma OtherHigh(s: State, s': State)
    requires Inv(s) && Next(s, s') && !Insert(s, s')
    ensures |s'.blocks| == |s.blocks| && s'.high >= s.high
  {}

  // With more than two blocks, all but two of them would fit in the most
  // elements that were ever pushed and not yet announced left.
  lemma {:induction false} BlocksWithinHigh(run: seq<State>, i: nat)
    requires IsRun(run) && i < |run|
    ensures |run[i].blocks| > 2 ==> (|run[i].blocks| - 2) * K < run[i].high
  {
    if i > 0 {
      BlocksWithinHigh(run, i - 1);
      RunHolds(run, i - 1);
      assert Next(run[i - 1], run[i]);
      if Insert(run[i - 1], run[i]) { InsertHigh(run[i - 1], run[i]); } else { OtherHigh(run[i - 1], run[i]); }
    }
  }

  lemma {:induction false} HighWasReached(run: seq<State>, i: nat)
    requires IsRun(run) && i < |run|
    ensures exists j :: 0 <= j <= i && run[j].p.count - run[j].popPub == run[i].high
  {
    if i > 0 {
      HighWasReached(run, i - 1);
      var j :| 0 <= j <= i - 1 && run[j].p.count - run[j].popPub == run[i - 1].high;
      assert Next(run[i - 1], run[i]);
      assert run[i].high == run[i - 1].high || run[i].high == run[i].p.count - run[i].popPub;
    }
  }

  // The memory bound: (blocks - 2) * kSlots is below the number of elements
  // that at some earlier moment were pushed and not yet announced left.
  lemma MemoryBound(run: seq<State>, i: nat)
    requires IsRun(run) && i < |run| && |run[i].blocks| > 2
    ensures exists j :: 0 <= j <= i && (|run[i].blocks| - 2) * K < run[j].p.count - run[j].popPub
  {
    BlocksWithinHigh(run, i);
    HighWasReached(run, i);
  }

  // ------------------------------------------------------------- destructor

  // The mod of a place at most once past the end.
  function Round(n: nat, i: nat): nat {
    if i < n then i else i - n
  }

  // A block that ends before the producer's count leads to the one after it.
  lemma FollowsIn(bs: seq<Block>, ring: seq<nat>, b: nat, count: nat)
    requires RingOk(bs, ring) && b < |bs| && bs[b].end < count <= bs[ring[|ring| - 1]].end
    ensures bs[b].next < |bs| && bs[bs[b].next].end == bs[b].end + K
  {
    assert b in ring;
    var i :| 0 <= i < |ring| && ring[i] == b;
    assert bs[ring[i]].next == ring[i + 1] && ring[i + 1] < |bs|;
  }

  // The elements from the consumer's position up to the producer's.
  method DestroyElements(bs: seq<Block>, ghost ring: seq<nat>, c: Consumer, ghost pushed: seq<Elem>, count: nat)
    returns (destroyed: seq<Cell>)
    requires RingOk(bs, ring) && c.blk < |bs| && c.off <= K && bs[c.blk].end == c.count - c.off + K
    requires c.count <= count == |pushed| <= bs[ring[|ring| - 1]].end && Filled(bs, pushed, c.count)
    ensures |destroyed| == count - c.count
    ensures forall k :: 0 <= k < |destroyed| ==> destroyed[k] == Built(pushed[c.count + k])
  {
    destroyed := [];
    var b: nat, off: nat, n: nat := c.blk, c.off, c.count;
    while n < count
      invariant c.count <= n <= count && |destroyed| == n - c.count
      invariant b < |bs| && off <= K && bs[b].end == n - off + K
      invariant forall k :: 0 <= k < |destroyed| ==> destroyed[k] == Built(pushed[c.count + k])
    {
      if off == K {
        FollowsIn(bs, ring, b, count);
        b := bs[b].next;
        off := 0;
      }
      destroyed := destroyed + [bs[b].slots[off]];
      off, n := off + 1, n + 1;
    }
  }

  lemma RoundApart(n: nat, i: nat, k: nat, l: nat)
    requires i < n && k < l < n
    ensures Round(n, i + k) != Round(n, i + l)
  {}

  lemma NotYetRound(ring: seq<nat>, i: nat, m: nat)
    requires i < |ring| && m <= |ring| && ring[Round(|ring|, i + m)] != ring[i]
    ensures m < |ring|
  {}

  lemma AllRound(ring: seq<nat>, i: nat, m: nat)
    requires i < |ring| && 1 <= m <= |ring| && (forall a, b :: 0 <= a < b < |ring| ==> ring[a] != ring[b])
    requires ring[Round(|ring|, i + m)] == ring[i]
    ensures m == |ring|
  {}

  // Every block, walking round from one of them.
  method FreeBlocks(bs: seq<Block>, ghost ring: seq<nat>, start: nat) returns (freed: seq<nat>)
    requires RingOk(bs, ring) && start < |bs|
    ensures |freed| == |bs| && (forall k :: 0 <= k < |freed| ==> freed[k] < |bs|)
    ensures forall k, l :: 0 <= k < l < |freed| ==> freed[k] != freed[l]
  {
    assert start in ring;
    ghost var i :| 0 <= i < |ring| && ring[i] == start;
    assert Leads(bs, ring);
    freed := WalkRound(bs, ring, i, start);
    Walked(ring, i, freed);
  }

  // Each block of the ring leads to the next.
  ghost predicate Leads(bs: seq<Block>, ring: seq<nat>) {
    forall i :: 0 <= i < |ring| ==> ring[i] < |bs| && bs[ring[i]].next == ring[Round(|ring|, i + 1)]
  }

  method WalkRound(bs: seq<Block>, ghost ring: seq<nat>, ghost i: nat, start: nat) returns (freed: seq<nat>)
    requires Leads(bs, ring) && i < |ring| && ring[i] == start
    requires forall a, b :: 0 <= a < b < |ring| ==> ring[a] != ring[b]
    ensures |freed| == |ring| && forall k :: 0 <= k < |freed| ==> freed[k] == ring[Round(|ring|, i + k)]
  {
    freed := [start];
    var b := bs[start].next;
    while b != start
      invariant 1 <= |freed| <= |ring|
      invariant forall k :: 0 <= k < |freed| ==> freed[k] == ring[Round(|ring|, i + k)]
      invariant b == ring[Round(|ring|, i + |freed|)]
      decreases |ring| - |freed|
    {
      NotYetRound(ring, i, |freed|);
      freed := freed + [b];
      b := bs[b].next;
    }
    AllRound(ring, i, |freed|);
  }

  lemma Walked(ring: seq<nat>, i: nat, freed: seq<nat>)
    requires i < |ring| && 1 <= |freed| <= |ring| && forall a, b :: 0 <= a < b < |ring| ==> ring[a] != ring[b]
    requires forall k :: 0 <= k < |freed| ==> freed[k] == ring[Round(|ring|, i + k)]
    ensures forall k, l :: 0 <= k < l < |freed| ==> freed[k] != freed[l]
  {
    forall k, l | 0 <= k < l < |freed| ensures freed[k] != freed[l] {
      RoundApart(|ring|, i, k, l);
    }
  }

  // ~spsc_ring, with no other thread inside: the elements destroyed are those
  // still queued, in order, and every block is freed once.
  method Destroy(s: State) returns (destroyed: seq<Cell>, freed: seq<nat>)
    requires Inv(s) && s.p.at.Idle? && s.c.at.Outside?
    ensures |destroyed| == |s.pushed| - s.c.count
    ensures forall k :: 0 <= k < |destroyed| ==> destroyed[k] == Built(s.pushed[s.c.count + k])
    ensures |freed| == |s.blocks| && (forall k :: 0 <= k < |freed| ==> freed[k] < |s.blocks|)
    ensures forall k, l :: 0 <= k < l < |freed| ==> freed[k] != freed[l]
  {
    var blocks := Released(s.blocks, s.inUse);
    ReleaseFilled(s);
    ReleaseRing(s);
    destroyed := DestroyElements(blocks, s.ring, s.c, s.pushed, s.p.count);
    freed := FreeBlocks(blocks, s.ring, s.c.blk);
  }

  // ------------------------------------------------- why the first end is set

  // The constructor without its line for the end of the first block.
  function Unmarked(): State {
    State([Fresh(1, 0), Fresh(0, 0)], Producer(0, 0, 0, 0, Idle), Consumer(0, 0, 0, 0, Outside), 0, 0, Nowhere,
          [], [], [1, 0], 0)
  }

  ghost predicate IsWay(s: State, t: State, run: seq<State>) {
    && |run| > 0 && run[0] == s && run[|run| - 1] == t
    && forall i :: 0 <= i < |run| - 1 ==> Next(run[i], run[i + 1])
  }

  ghost predicate CanReach(s: State, t: State) {
    exists run :: IsWay(s, t, run)
  }

  lemma Onward(s: State, t: State, u: State)
    requires CanReach(s, t) && Next(t, u)
    ensures CanReach(s, u)
  {
    var run :| IsWay(s, t, run);
    assert IsWay(s, u, run + [u]);
  }

  // The producer fills what is left of its block, while the consumer is away.
  lemma {:induction false} Fills(start: State, s: State, e: Elem, m: nat) returns (t: State)
    requires CanReach(start, s) && s.p.at.Idle? && s.p.off + m <= K && s.p.blk < |s.blocks|
    requires forall b :: 0 <= b < |s.blocks| ==> |s.blocks[b].slots| == K
    ensures CanReach(start, t) && t.p == s.p.(off := s.p.off + m, count := s.p.count + m)
    ensures |t.blocks| == |s.blocks| && t.ring == s.ring && t.c == s.c && t.popped == s.popped && t.popPub == s.popPub
    ensures forall b :: 0 <= b < |s.blocks| ==>
              t.blocks[b].next == s.blocks[b].next && t.blocks[b].end == s.blocks[b].end && |t.blocks[b].slots| == K
    ensures forall b :: 0 <= b < |s.blocks| && b != s.p.blk ==> t.blocks[b] == s.blocks[b]
    ensures forall i :: s.p.off <= i < s.p.off + m ==> t.blocks[s.p.blk].slots[i] == Built(e)
    decreases m
  {
    if m == 0 {
      t := s;
    } else {
      var r := Fills(start, s, e, m - 1);
      t := r.(blocks := SetSlot(r.blocks, r.p.blk, r.p.off, Built(e)),
        p := r.p.(off := r.p.off + 1, count := r.p.count + 1),
              pushed := r.pushed + [e], high := Max(r.high, r.p.count + 1 - r.popPub));
      assert Push(r, t, e);
      Onward(start, r, t);
    }
  }

  /** Without it there is a run in which the producer, one lap later, is about
      to build an element over the first one, which nobody has read. */
  lemma UnmarkedOverwrites(e: Elem)
    ensures exists t: State :: CanReach(Unmarked(), t) && t.p.at.Idle? && t.p.off < K && t.p.blk < |t.blocks|
              && t.p.off < |t.blocks[t.p.blk].slots| && t.blocks[t.p.blk].slots[t.p.off] == Built(e) && t.popped == []
  {
    var s := Unmarked();
    assert IsWay(s, s, [s]);
    var a := Fills(s, s, e, K);
    var b := a.(blocks := a.blocks[1 := a.blocks[1].(end := K + K)], p := Producer(1, 0, K, 0, Idle), ring := [0, 1]);
    assert TurnOver(a, b);
    Onward(s, a, b);
    var c := Fills(s, b, e, K);
    var t := c.(blocks := c.blocks[0 := c.blocks[0].(end := K + K + K)], p := Producer(0, 0, K + K, 0, Idle),
      ring := [1, 0]);
    assert TurnOver(c, t);
    Onward(s, c, t);
    assert t.blocks[0].slots[0] == Built(e);
  }

  // --------------------------------- an insertion after the consumer's block

  // The consumer takes m elements of the first block, all lent out in turn.
  lemma {:induction false} Takes(start: State, s: State, m: nat) returns (t: State)
    requires CanReach(start, s) && s.c == Consumer(0, 0, 0, 0, Outside) && s.pushPub == K + K && m <= K
    requires |s.blocks| > 0
    requires forall b :: 0 <= b < |s.blocks| ==> |s.blocks[b].slots| == K
    ensures CanReach(start, t) && t.p == s.p && t.popPub == s.popPub && t.pushPub == s.pushPub
    ensures t.c == Consumer(0, m, m, if m == 0 then 0 else K + K, Outside) && SameBlocks(s, t)
    decreases m
  {
    if m == 0 {
      t := s;
    } else {
      var r := Takes(start, s, m - 1);
      var a := r.(blocks := Released(r.blocks, r.inUse), inUse := Nowhere, c := r.c.(at := Checking(true)));
      assert BeginPop(r, a, true);
      Onward(start, r, a);
      var b := a.(c := a.c.(cachedPush := K + K, at := Taking(true)));
      assert Check(a, b);
      Onward(start, a, b);
      t := b.(inUse := At(0, m - 1), popped := b.popped + [b.blocks[0].slots[m - 1]],
              c := Consumer(0, m, m, K + K, Outside));
      assert Take(b, t);
      Onward(start, b, t);
    }
  }

  ghost predicate SameBlocks(s: State, t: State) {
    && |t.blocks| == |s.blocks|
    && forall b :: 0 <= b < |s.blocks| ==>
         t.blocks[b].next == s.blocks[b].next && t.blocks[b].end == s.blocks[b].end
           && |t.blocks[b].slots| == |s.blocks[b].slots|
  }

  // Both blocks are full and published, the consumer has taken the first one's
  // elements and moved on, and has not yet said so.
  lemma MovedOn(e: Elem) returns (s: State, t: State)
    ensures Init(s) && CanReach(s, t) && t.c.blk == 1 && t.c.at.Storing? && t.popPub == 0
    ensures t.p == Producer(1, K, K + K, 0, Idle) && |t.blocks| == 2 && t.blocks[1].next == 0 && t.blocks[0].end == K
  {
    s := State([Fresh(1, K), Fresh(0, 0)], Producer(0, 0, 0, 0, Idle), Consumer(0, 0, 0, 0, Outside), 0, 0, Nowhere,
               [], [], [1, 0], 0);
    assert IsWay(s, s, [s]);
    var a := Fills(s, s, e, K);
    var b := a.(blocks := a.blocks[1 := a.blocks[1].(end := K + K)], p := Producer(1, 0, K, 0, Idle), ring := [0, 1]);
    assert TurnOver(a, b);
    Onward(s, a, b);
    var c := Fills(s, b, e, K);
    var d := c.(pushPub := K + K);
    assert Publish(c, d);
    Onward(s, c, d);
    t := LeavesFirst(s, d);
  }

  lemma LeavesFirst(start: State, s: State) returns (t: State)
    requires CanReach(start, s) && s.c == Consumer(0, 0, 0, 0, Outside) && s.pushPub == K + K && |s.blocks| == 2
    requires s.blocks[0].next == 1 && forall b :: 0 <= b < |s.blocks| ==> |s.blocks[b].slots| == K
    ensures CanReach(start, t) && t.p == s.p && t.popPub == s.popPub && SameBlocks(s, t)
    ensures t.c.blk == 1 && t.c.at.Storing?
  {
    var r := Takes(start, s, K);
    var a := r.(blocks := Released(r.blocks, r.inUse), inUse := Nowhere, c := r.c.(at := Checking(true)));
    assert BeginPop(r, a, true);
    Onward(start, r, a);
    var b := a.(c := a.c.(at := Taking(true)));
    assert Check(a, b);
    Onward(start, a, b);
    t := b.(c := b.c.(blk := 1, off := 0, at := Storing(true)));
    assert LeaveBlock(b, t);
    Onward(start, b, t);
  }

  /** The consumer can be on the producer's block at an insertion: there is a run
      in which it has moved on to it, and not yet announced that it has left
      the one before, when the producer inserts. */
  lemma InsertsAtConsumer(e: Elem)
    ensures exists run: seq<State> :: IsRun(run) && InsertEnds(run)
  {
    var s, r := MovedOn(e);
    var a := r.(p := r.p.(at := Reading));
    assert TurnOver(r, a);
    Onward(s, r, a);
    var b := a.(p := a.p.(at := Inserting));
    assert ReadPop(a, b);
    Onward(s, a, b);
    var run :| IsWay(s, b, run);
    var nb := |b.blocks|;
    var t := b.(blocks := b.blocks[1 := b.blocks[1].(next := nb)] + [Fresh(0, b.p.count + K)],
                p := Producer(nb, 0, b.p.count, b.p.cachedPop, Idle), ring := b.ring + [nb]);
    assert Insert(b, t);
    assert IsRun(run + [t]) && InsertEnds(run + [t]);
  }

  // The last step inserts a block after the one the consumer is on.
  ghost predicate InsertEnds(run: seq<State>) {
    |run| >= 2 && var s := run[|run| - 2]; Insert(s, run[|run| - 1]) && s.c.blk == s.p.blk
  }
}
