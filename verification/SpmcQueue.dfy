/** The single-producer queue with any number of consumers
    (runtime/spmc_queue.hpp): segments of K cells, claimed by compare-and-swap
    up to the count the producer has published. One step is one access to
    shared memory. A segment is named by its place in the list; that none is
    freed under a pop is what Hazard proves. */
module SpmcQueue {
  import opened Basics
  import opened Positions

  // kSegment.
  const K: Positive

  type Elem(!new)
  datatype Cell = Raw | Built(e: Elem)
  datatype Segment = Segment(deq: nat, seen: nat, enq: nat, cells: seq<Cell>)

  datatype Stage =
    | Outside
    | Holding                              // about to read head_
    | ReadDeq(h: nat)
    | ReadSeen(h: nat, d: nat)
    | ReadEnq(h: nat, d: nat)              // d is not below the count it has
    | StoreSeen(h: nat, d: nat, e: nat)
    | Claiming(h: nat, d: nat, e: nat)     // about to compare-and-swap deq
    | Taking(h: nat, d: nat)               // claimed: the element in its taker
    | ReadNext(h: nat)                     // full and drained: about to read next
    | Swinging(h: nat)                     // about to compare-and-swap head_
    | Answered(got: Cell)                  // Raw: the queue was empty

  /** linking: the full tail is published and the next one not yet linked.
      History: pushed in order, and taken, the cells in the order claimed. */
  datatype State = State(segs: seq<Segment>, filled: nat, linking: bool, head: nat, threads: seq<Stage>,
                         pushed: seq<Elem>, taken: seq<Pos>)

  function Fresh(): Segment {
    Segment(0, 0, 0, seq(K, (i: nat) => Raw))
  }

  ghost predicate Init(s: State) {
    && s.segs == [Fresh()] && s.filled == 0 && !s.linking && s.head == 0 && s.pushed == [] && s.taken == []
    && forall p :: 0 <= p < |s.threads| ==> s.threads[p] == Outside
  }

  // -------------------------------------------------------------- producer

  ghost predicate Push(s: State, s': State, e: Elem) {
    && !s.linking && s.filled < K && |s.segs| > 0
    && var t := |s.segs| - 1;
       && s.filled < |s.segs[t].cells|
       && s' == s.(segs := s.segs[t := s.segs[t].(cells := s.segs[t].cells[s.filled := Built(e)])],
                   filled := s.filled + 1, pushed := s.pushed + [e])
  }

  ghost predicate Publish(s: State, s': State) {
    && !s.linking && |s.segs| > 0
    && s' == s.(segs := s.segs[|s.segs| - 1 := s.segs[|s.segs| - 1].(enq := s.filled)])
  }

  // The tail is full: published whole, then the next one linked.
  ghost predicate PublishFull(s: State, s': State) {
    && !s.linking && s.filled == K && |s.segs| > 0
    && s' == s.(segs := s.segs[|s.segs| - 1 := s.segs[|s.segs| - 1].(enq := K)], linking := true)
  }

  ghost predicate Link(s: State, s': State) {
    s.linking && s' == s.(segs := s.segs + [Fresh()], filled := 0, linking := false)
  }

  // ------------------------------------------------------------- consumers

  function Goes(s: State, p: nat, at: Stage): State
    requires p < |s.threads|
  {
    s.(threads := s.threads[p := at])
  }

  // d against the published count e it has: claim, or read the count again.
  function Compared(h: nat, d: nat, e: nat): Stage {
    if d < e then Claiming(h, d, e) else ReadEnq(h, d)
  }

  ghost predicate Reads(s: State, s': State, p: nat) {
    && p < |s.threads|
    && match s.threads[p]
       case Outside => s' == Goes(s, p, Holding)
       case Answered(_) => s' == Goes(s, p, Outside)
       case Holding => s' == Goes(s, p, ReadDeq(s.head))
       case ReadDeq(h) => h < |s.segs| && s' == Goes(s, p, ReadSeen(h, s.segs[h].deq))
       case ReadSeen(h, d) => h < |s.segs| && s' == Goes(s, p, Compared(h, d, s.segs[h].seen))
       case _ => false
  }

  ghost predicate ReadCount(s: State, s': State, p: nat) {
    && p < |s.threads| && s.threads[p].ReadEnq? && s.threads[p].h < |s.segs|
    && var ReadEnq(h, d) := s.threads[p];
       var e := s.segs[h].enq;
       s' == Goes(s, p, if d < e then StoreSeen(h, d, e) else if e < K then Answered(Raw) else ReadNext(h))
  }

  ghost predicate Tell(s: State, s': State, p: nat) {
    && p < |s.threads| && s.threads[p].StoreSeen? && s.threads[p].h < |s.segs|
    && var StoreSeen(h, d, e) := s.threads[p];
       s' == Goes(s.(segs := s.segs[h := s.segs[h].(seen := e)]), p, Claiming(h, d, e))
  }

  ghost predicate Claim(s: State, s': State, p: nat) {
    && p < |s.threads| && s.threads[p].Claiming? && s.threads[p].h < |s.segs|
    && var Claiming(h, d, e) := s.threads[p];
       && s.segs[h].deq == d
       && s' == Goes(s.(segs := s.segs[h := s.segs[h].(deq := d + 1)], taken := s.taken + [Pos(h, d)]), p, Taking(h, d))
  }

  // It fails if another claimed, and may fail unasked.
  ghost predicate ClaimFails(s: State, s': State, p: nat) {
    && p < |s.threads| && s.threads[p].Claiming? && s.threads[p].h < |s.segs|
    && var Claiming(h, d, e) := s.threads[p];
       s' == Goes(s, p, Compared(h, s.segs[h].deq, e))
  }

  ghost predicate Take(s: State, s': State, p: nat) {
    && p < |s.threads| && s.threads[p].Taking?
    && var Taking(h, d) := s.threads[p];
       && h < |s.segs| && d < |s.segs[h].cells|
       && s' == Goes(s.(segs := s.segs[h := s.segs[h].(cells := s.segs[h].cells[d := Raw])]), p,
           Answered(s.segs[h].cells[d]))
  }

  ghost predicate ReadLink(s: State, s': State, p: nat) {
    && p < |s.threads| && s.threads[p].ReadNext?
    && var h := s.threads[p].h;
       s' == Goes(s, p, if h + 1 < |s.segs| then Swinging(h) else Answered(Raw))
  }

  ghost predicate Swing(s: State, s': State, p: nat) {
    && p < |s.threads| && s.threads[p].Swinging?
    && var h := s.threads[p].h;
       s' == Goes(s.(head := if s.head == h then h + 1 else s.head), p, Holding)
  }

  ghost predicate Produces(s: State, s': State) {
    (exists e :: Push(s, s', e)) || Publish(s, s') || PublishFull(s, s') || Link(s, s')
  }

  ghost predicate Consumes(s: State, s': State, p: nat) {
    || Reads(s, s', p) || ReadCount(s, s', p) || Tell(s, s', p) || Claim(s, s', p) || ClaimFails(s, s', p)
    || Take(s, s', p) || ReadLink(s, s', p) || Swing(s, s', p)
  }

  ghost predicate Next(s: State, s': State) {
    Produces(s, s') || exists p: nat :: Consumes(s, s', p)
  }

  ghost predicate IsRun(run: seq<State>) {
    && |run| > 0 && Init(run[0])
    && forall i :: 0 <= i < |run| - 1 ==> Next(run[i], run[i + 1])
  }

  // ------------------------------------------------------------- invariant

  // The number of the element in cell i of segment h.
  function Number(h: nat, i: nat): nat {
    h * K + i
  }

  // Published elements: every segment but the last is published whole.
  function Published(segs: seq<Segment>): nat
    requires |segs| > 0
  {
    Number(|segs| - 1, segs[|segs| - 1].enq)
  }

  // Counts: claims end in the head segment, and the segments after it are
  // untouched; a linked next segment means this one is published whole.
  ghost predicate Counts(segs: seq<Segment>, filled: nat, linking: bool, head: nat) {
    && head < |segs| && filled <= K
    && (forall h :: 0 <= h < |segs| ==>
        segs[h].deq <= segs[h].enq <= K && segs[h].seen <= segs[h].enq && |segs[h].cells| == K)
    && (forall h :: 0 <= h < |segs| - 1 ==> segs[h].enq == K)
    && segs[|segs| - 1].enq <= filled && (linking ==> segs[|segs| - 1].enq == K == filled)
    && (forall h :: 0 <= h < head ==> segs[h].deq == K)
    && (forall h :: head < h < |segs| ==> segs[h].deq == 0)
  }

  ghost predicate InOrder(taken: seq<Pos>) {
    forall k :: 0 <= k < |taken| ==> taken[k].idx < K && Number(taken[k].seg, taken[k].idx) == k
  }

  // A thread's place: what it read of a segment holds still.
  ghost predicate ThreadOk(segs: seq<Segment>, head: nat, t: Stage) {
    match t
    case Outside => true
    case Holding => true
    case Answered(_) => true
    case ReadDeq(h) => h <= head
    case ReadSeen(h, d) => h <= head && h < |segs| && d <= segs[h].deq
    case ReadEnq(h, d) => h <= head && h < |segs| && d <= segs[h].deq
    case StoreSeen(h, d, e) => h <= head && h < |segs| && d <= segs[h].deq && d < e <= segs[h].enq
    case Claiming(h, d, e) => h <= head && h < |segs| && d <= segs[h].deq && d < e <= segs[h].enq
    case Taking(h, d) => h <= head && h < |segs| && d < segs[h].deq
    case ReadNext(h) => h <= head && h < |segs| && segs[h].deq == K
    case Swinging(h) => h <= head && h + 1 < |segs| && segs[h].deq == K
  }

  // Every unclaimed element is in its cell, and cells beyond what is pushed
  // are raw.
  ghost predicate Unclaimed(segs: seq<Segment>, pushed: seq<Elem>) {
    forall h, i :: 0 <= h < |segs| && segs[h].deq <= i < |segs[h].cells| ==>
      segs[h].cells[i] == if Number(h, i) < |pushed| then Built(pushed[Number(h, i)]) else Raw
  }

  // An element in its taker is in its cell.
  ghost predicate InCell(segs: seq<Segment>, pushed: seq<Elem>, t: Stage) {
    t.Taking? ==>
      && t.h < |segs| && t.d < |segs[t.h].cells| && Number(t.h, t.d) < |pushed|
      && segs[t.h].cells[t.d] == Built(pushed[Number(t.h, t.d)])
  }

  // No two takers have the same cell.
  ghost predicate Apart(ts: seq<Stage>) {
    forall p, q :: 0 <= p < q < |ts| && ts[p].Taking? && ts[q].Taking? ==> ts[p] != ts[q]
  }

  ghost predicate Inv(s: State) {
    && Counts(s.segs, s.filled, s.linking, s.head)
    && |s.pushed| == Number(|s.segs| - 1, s.filled)
    && |s.taken| == Number(s.head, s.segs[s.head].deq) && InOrder(s.taken)
    && (forall p :: 0 <= p < |s.threads| ==> ThreadOk(s.segs, s.head, s.threads[p]))
    && Unclaimed(s.segs, s.pushed) && (forall p :: 0 <= p < |s.threads| ==> InCell(s.segs, s.pushed, s.threads[p]))
    && Apart(s.threads)
  }

  lemma InitHolds(s: State)
    requires Init(s)
    ensures Inv(s)
  {}

  // ------------------------------------------------- steps keep the invariant

  lemma NextSegment(h: nat)
    ensures Number(h + 1, 0) == Number(h, K)
  {}

  // Cells of earlier segments come first.
  lemma NumberLess(h: nat, i: nat, g: nat, j: nat)
    requires h < g && i <= K
    ensures Number(h, i) <= Number(g, j) && (i < K ==> Number(h, i) < Number(g, j))
  {
    assert g * K >= (h + 1) * K == h * K + K;
  }

  // Counters only grow.
  ghost predicate Grew(segs: seq<Segment>, segs': seq<Segment>) {
    && |segs| <= |segs'|
    && forall h :: 0 <= h < |segs| ==> segs[h].deq <= segs'[h].deq <= K && segs[h].enq <= segs'[h].enq
  }

  lemma ThreadKeeps(segs: seq<Segment>, segs': seq<Segment>, head: nat, head': nat, t: Stage)
    requires ThreadOk(segs, head, t) && Grew(segs, segs') && head <= head'
    ensures ThreadOk(segs', head', t)
  {}

  ghost predicate SameCells(segs: seq<Segment>, segs': seq<Segment>) {
    |segs'| == |segs| && forall h :: 0 <= h < |segs| ==> segs'[h].cells == segs[h].cells && segs'[h].deq == segs[h].deq
  }

  // A step that claims, takes and pushes nothing: p goes on to `at`.
  lemma PlainStep(s: State, s': State, p: nat, at: Stage)
    requires Inv(s) && p < |s.threads| && s'.threads == s.threads[p := at] && !at.Taking?
    requires ThreadOk(s'.segs, s'.head, at)
    requires SameCells(s.segs, s'.segs) && Grew(s.segs, s'.segs) && s.head <= s'.head
    requires Counts(s'.segs, s'.filled, s'.linking, s'.head) && s'.filled == s.filled
    requires s'.pushed == s.pushed && s'.taken == s.taken && |s'.taken| == Number(s'.head, s'.segs[s'.head].deq)
    ensures Inv(s')
  {
    forall q | 0 <= q < |s.threads| && q != p ensures ThreadOk(s'.segs, s'.head, s'.threads[q]) {
      ThreadKeeps(s.segs, s'.segs, s.head, s'.head, s.threads[q]);
    }
  }

  // A step that only moves p on.
  lemma MoveOn(s: State, p: nat, at: Stage)
    requires Inv(s) && p < |s.threads| && !at.Taking? && ThreadOk(s.segs, s.head, at)
    ensures Inv(Goes(s, p, at))
  {
    PlainStep(s, Goes(s, p, at), p, at);
  }

  lemma ReadsKeeps(s: State, s': State, p: nat)
    requires Inv(s) && Reads(s, s', p)
    ensures Inv(s')
  {
    assert ThreadOk(s.segs, s.head, s.threads[p]);
    MoveOn(s, p, s'.threads[p]);
  }

  lemma ReadCountKeeps(s: State, s': State, p: nat)
    requires Inv(s) && ReadCount(s, s', p)
    ensures Inv(s')
  {
    assert ThreadOk(s.segs, s.head, s.threads[p]);
    MoveOn(s, p, s'.threads[p]);
  }

  lemma ClaimFailsKeeps(s: State, s': State, p: nat)
    requires Inv(s) && ClaimFails(s, s', p)
    ensures Inv(s')
  {
    assert ThreadOk(s.segs, s.head, s.threads[p]);
    MoveOn(s, p, s'.threads[p]);
  }

  lemma ReadLinkKeeps(s: State, s': State, p: nat)
    requires Inv(s) && ReadLink(s, s', p)
    ensures Inv(s')
  {
    assert ThreadOk(s.segs, s.head, s.threads[p]);
    MoveOn(s, p, s'.threads[p]);
  }

  lemma TellKeeps(s: State, s': State, p: nat)
    requires Inv(s) && Tell(s, s', p)
    ensures Inv(s')
  {
    assert ThreadOk(s.segs, s.head, s.threads[p]);
    PlainStep(s, s', p, s'.threads[p]);
  }

  lemma SwingKeeps(s: State, s': State, p: nat)
    requires Inv(s) && Swing(s, s', p)
    ensures Inv(s')
  {
    assert ThreadOk(s.segs, s.head, s.threads[p]);
    NextSegment(s.threads[p].h);
    PlainStep(s, s', p, Holding);
  }

  lemma PushUnclaimed(segs: seq<Segment>, pushed: seq<Elem>, filled: nat, e: Elem)
    requires Unclaimed(segs, pushed) && |segs| > 0 && filled < K && |pushed| == Number(|segs| - 1, filled)
    requires forall h :: 0 <= h < |segs| ==> |segs[h].cells| == K
    ensures var t := |segs| - 1;
            Unclaimed(segs[t := segs[t].(cells := segs[t].cells[filled := Built(e)])], pushed + [e])
  {
    var t := |segs| - 1;
    forall h: nat, i: nat | h < t && i < K ensures Number(h, i) < |pushed| {
      NumberLess(h, i, t, filled);
    }
  }

  lemma PushCells(s: State, s': State, e: Elem)
    requires Inv(s) && Push(s, s', e)
    ensures Unclaimed(s'.segs, s'.pushed)
    ensures forall p :: 0 <= p < |s.threads| ==> InCell(s'.segs, s'.pushed, s'.threads[p])
  {
    PushUnclaimed(s.segs, s.pushed, s.filled, e);
    forall p | 0 <= p < |s.threads| ensures InCell(s'.segs, s'.pushed, s'.threads[p]) {
      assert InCell(s.segs, s.pushed, s.threads[p]);
    }
  }

  lemma PushKeeps(s: State, s': State, e: Elem)
    requires Inv(s) && Push(s, s', e)
    ensures Inv(s')
  {
    PushCells(s, s', e);
    assert Counts(s'.segs, s'.filled, s'.linking, s'.head);
    assert |s'.pushed| == Number(|s'.segs| - 1, s'.filled);
    forall p | 0 <= p < |s.threads| ensures ThreadOk(s'.segs, s'.head, s'.threads[p]) {
      ThreadKeeps(s.segs, s'.segs, s.head, s'.head, s.threads[p]);
    }
  }

  // The tail's count grows.
  lemma PublishKeeps(s: State, s': State)
    requires Inv(s) && (Publish(s, s') || PublishFull(s, s'))
    ensures Inv(s')
  {
    PublishCounts(s, s');
    forall p | 0 <= p < |s.threads|
      ensures ThreadOk(s'.segs, s'.head, s'.threads[p]) && InCell(s'.segs, s'.pushed, s'.threads[p])
    {
      ThreadKeeps(s.segs, s'.segs, s.head, s'.head, s.threads[p]);
      assert InCell(s.segs, s.pushed, s.threads[p]);
    }
  }

  lemma CountsPublish(segs: seq<Segment>, filled: nat, head: nat, e: nat, linking: bool)
    requires Counts(segs, filled, false, head) && segs[|segs| - 1].enq <= e <= filled && (linking ==> e == K == filled)
    ensures var segs' := segs[|segs| - 1 := segs[|segs| - 1].(enq := e)];
            Counts(segs', filled, linking, head) && SameCells(segs, segs') && Grew(segs, segs')
  {}

  lemma PublishCounts(s: State, s': State)
    requires Counts(s.segs, s.filled, s.linking, s.head) && (Publish(s, s') || PublishFull(s, s'))
    ensures Counts(s'.segs, s'.filled, s'.linking, s'.head) && SameCells(s.segs, s'.segs) && Grew(s.segs, s'.segs)
  {
    CountsPublish(s.segs, s.filled, s.head, s.filled, s'.linking);
  }

  lemma LinkKeeps(s: State, s': State)
    requires Inv(s) && Link(s, s')
    ensures Inv(s')
  {
    NextSegment(|s.segs| - 1);
  }

  // Only the head segment has anything left to claim.
  lemma ClaimAtHead(s: State, s': State, p: nat)
    requires Inv(s) && Claim(s, s', p)
    ensures s.threads[p].h == s.head && s.taken + [Pos(s.head, s.threads[p].d)] == s'.taken && InOrder(s'.taken)
    ensures Number(s.head, s.threads[p].d) == |s.taken| < Published(s.segs)
  {
    assert ThreadOk(s.segs, s.head, s.threads[p]);
    if s.head < |s.segs| - 1 { NumberLess(s.head, s.threads[p].d, |s.segs| - 1, s.segs[|s.segs| - 1].enq); }
  }

  lemma ClaimCells(s: State, s': State, p: nat)
    requires Inv(s) && Claim(s, s', p)
    ensures Unclaimed(s'.segs, s'.pushed) && Apart(s'.threads)
    ensures forall q :: 0 <= q < |s.threads| ==> InCell(s'.segs, s'.pushed, s'.threads[q])
  {
    ClaimAtHead(s, s', p);
    PublishedIsPushed(s);
    assert forall q :: 0 <= q < |s.threads| ==> InCell(s.segs, s.pushed, s.threads[q]);
    assert forall q :: 0 <= q < |s.threads| ==> ThreadOk(s.segs, s.head, s.threads[q]);
  }

  lemma PublishedIsPushed(s: State)
    requires Inv(s)
    ensures Published(s.segs) <= |s.pushed|
  {}

  lemma ClaimKeeps(s: State, s': State, p: nat)
    requires Inv(s) && Claim(s, s', p)
    ensures Inv(s')
  {
    ClaimAtHead(s, s', p);
    ClaimCells(s, s', p);
    ClaimCounts(s, s', p);
    forall q | 0 <= q < |s.threads| && q != p ensures ThreadOk(s'.segs, s'.head, s'.threads[q]) {
      ThreadKeeps(s.segs, s'.segs, s.head, s'.head, s.threads[q]);
    }
  }

  lemma ClaimCounts(s: State, s': State, p: nat)
    requires Counts(s.segs, s.filled, s.linking, s.head) && Claim(s, s', p) && s.threads[p].h == s.head
    requires ThreadOk(s.segs, s.head, s.threads[p])
    ensures Counts(s'.segs, s'.filled, s'.linking, s'.head) && Grew(s.segs, s'.segs)
    ensures ThreadOk(s'.segs, s'.head, s'.threads[p])
  {}

  lemma TakeCells(s: State, s': State, p: nat)
    requires Inv(s) && Take(s, s', p)
    ensures Unclaimed(s'.segs, s'.pushed)
    ensures forall q :: 0 <= q < |s.threads| ==> InCell(s'.segs, s'.pushed, s'.threads[q])
  {
    assert ThreadOk(s.segs, s.head, s.threads[p]);
    forall q | 0 <= q < |s.threads| && q != p ensures InCell(s'.segs, s'.pushed, s'.threads[q]) {
      assert InCell(s.segs, s.pushed, s.threads[q]);
    }
  }

  lemma TakeKeeps(s: State, s': State, p: nat)
    requires Inv(s) && Take(s, s', p)
    ensures Inv(s')
  {
    TakeCells(s, s', p);
    assert Counts(s'.segs, s'.filled, s'.linking, s'.head);
    forall q | 0 <= q < |s.threads| && q != p ensures ThreadOk(s'.segs, s'.head, s'.threads[q]) {
      ThreadKeeps(s.segs, s'.segs, s.head, s'.head, s.threads[q]);
    }
  }

  lemma NextKeeps(s: State, s': State)
    requires Inv(s) && Next(s, s')
    ensures Inv(s')
  {
    if {
      case exists e :: Push(s, s', e) =>
        var e :| Push(s, s', e);
        PushKeeps(s, s', e);
      case Publish(s, s') || PublishFull(s, s') => PublishKeeps(s, s');
      case Link(s, s') => LinkKeeps(s, s');
      case exists p: nat :: Consumes(s, s', p) =>
        var p: nat :| Consumes(s, s', p);
        ConsumesKeeps(s, s', p);
    }
  }

  lemma ConsumesKeeps(s: State, s': State, p: nat)
    requires Inv(s) && Consumes(s, s', p)
    ensures Inv(s')
  {
    if {
      case Tell(s, s', p) => TellKeeps(s, s', p);
      case Claim(s, s', p) => ClaimKeeps(s, s', p);
      case Take(s, s', p) => TakeKeeps(s, s', p);
      case Swing(s, s', p) => SwingKeeps(s, s', p);
      case Reads(s, s', p) => ReadsKeeps(s, s', p);
      case ReadCount(s, s', p) => ReadCountKeeps(s, s', p);
      case ClaimFails(s, s', p) => ClaimFailsKeeps(s, s', p);
      case ReadLink(s, s', p) => ReadLinkKeeps(s, s', p);
    }
  }

  lemma {:induction false} RunHolds(run: seq<State>, i: nat)
    requires IsRun(run) && i < |run|
    ensures Inv(run[i])
  {
    if i == 0 {
      InitHolds(run[0]);
    } else {
      RunHolds(run, i - 1);
      assert Next(run[i - 1], run[i]);
      NextKeeps(run[i - 1], run[i]);
    }
  }

  // ------------------------------------------------------------- main results

  // Elements are claimed in the order pushed, each once, and only published
  // ones; neither deq nor seen passes a segment's published count; a linked
  // next segment means this one is published whole.
  lemma ClaimedInOrder(run: seq<State>, i: nat)
    requires IsRun(run) && i < |run|
    ensures |run[i].segs| > 0 && |run[i].taken| <= Published(run[i].segs) <= |run[i].pushed|
    ensures forall k :: 0 <= k < |run[i].taken| ==> Number(run[i].taken[k].seg, run[i].taken[k].idx) == k
    ensures forall h :: 0 <= h < |run[i].segs| ==>
              run[i].segs[h].deq <= run[i].segs[h].enq && run[i].segs[h].seen <= run[i].segs[h].enq
    ensures forall h :: 0 <= h < |run[i].segs| - 1 ==> run[i].segs[h].enq == K
  {
    RunHolds(run, i);
    var s := run[i];
    if s.head < |s.segs| - 1 { NumberLess(s.head, s.segs[s.head].deq, |s.segs| - 1, s.segs[|s.segs| - 1].enq); }
  }

  // A pop that claimed a cell takes the element pushed into it.
  lemma GotItsOwn(run: seq<State>, i: nat, p: nat)
    requires IsRun(run) && i + 1 < |run| && Take(run[i], run[i + 1], p)
    ensures Number(run[i].threads[p].h, run[i].threads[p].d) < |run[i].pushed|
    ensures run[i + 1].threads[p] == Answered(Built(run[i].pushed[Number(run[i].threads[p].h, run[i].threads[p].d)]))
  {
    RunHolds(run, i);
    assert InCell(run[i].segs, run[i].pushed, run[i].threads[p]);
  }

  lemma DrainedTail(s: State, h: nat)
    requires Inv(s) && h == |s.segs| - 1 && s.segs[h].deq >= s.segs[h].enq && h <= s.head
    ensures |s.taken| == Published(s.segs)
  {}

  // A pop that finds the queue empty does so at a step at which everything
  // published had been claimed.
  lemma EmptyAnswer(run: seq<State>, i: nat, p: nat)
    requires IsRun(run) && i + 1 < |run| && Consumes(run[i], run[i + 1], p) && run[i + 1].threads[p] == Answered(Raw)
    ensures |run[i].segs| > 0 && |run[i].taken| == Published(run[i].segs)
  {
    RunHolds(run, i);
    var s := run[i];
    assert ThreadOk(s.segs, s.head, s.threads[p]) && InCell(s.segs, s.pushed, s.threads[p]);
    assert s.threads[p].ReadEnq? || s.threads[p].ReadNext?;
    DrainedTail(s, s.threads[p].h);
  }

  // -------------------------------------------------------------- publishing

  // What is published only grows.
  ghost predicate Shows(s: State, s': State) {
    |s.segs| > 0 && |s'.segs| > 0 && Published(s.segs) <= Published(s'.segs)
  }

  lemma ProducesShows(s: State, s': State)
    requires Inv(s) && Produces(s, s')
    ensures Shows(s, s')
  {
    NextSegment(|s.segs| - 1);
  }

  lemma ConsumesShows(s: State, s': State, p: nat)
    requires Inv(s) && Consumes(s, s', p)
    ensures Shows(s, s')
  {}

  ghost predicate ShowsAt(run: seq<State>, k: nat)
    requires k + 1 < |run|
  {
    Shows(run[k], run[k + 1])
  }

  lemma RunShows(run: seq<State>, k: nat)
    requires IsRun(run) && k + 1 < |run|
    ensures ShowsAt(run, k)
  {
    RunHolds(run, k);
    assert Next(run[k], run[k + 1]);
    if Produces(run[k], run[k + 1]) {
      ProducesShows(run[k], run[k + 1]);
    } else {
      var p: nat :| Consumes(run[k], run[k + 1], p);
      ConsumesShows(run[k], run[k + 1], p);
    }
  }

  lemma {:induction false} ShowsOn(run: seq<State>, i: nat, j: nat)
    requires i < j < |run| && forall k: nat :: k + 1 < |run| ==> ShowsAt(run, k)
    ensures Shows(run[i], run[j])
    decreases j
  {
    assert ShowsAt(run, j - 1);
    if i < j - 1 { ShowsOn(run, i, j - 1); }
  }

  // The producer publishes: all it has pushed is then published. So is a full
  // segment before the next one is linked.
  lemma PublishesAll(run: seq<State>, i: nat)
    requires IsRun(run) && i + 1 < |run| && (Publish(run[i], run[i + 1]) || PublishFull(run[i], run[i + 1]))
    ensures |run[i + 1].segs| > 0 && Published(run[i + 1].segs) == |run[i + 1].pushed|
    ensures run[i + 1].pushed == run[i].pushed
  {
    RunHolds(run, i);
  }

  /** A pop answers empty only if every element pushed before a publish that came
      before its answer has been claimed: so every element of a push that had
      returned before the pop began. */
  lemma EmptyMeansClaimed(run: seq<State>, i: nat, e: nat, p: nat)
    requires IsRun(run) && i < e && e + 1 < |run| && (Publish(run[i], run[i + 1]) || PublishFull(run[i], run[i + 1]))
    requires Consumes(run[e], run[e + 1], p) && run[e + 1].threads[p] == Answered(Raw)
    ensures |run[i].pushed| <= |run[e].taken|
  {
    PublishesAll(run, i);
    EmptyAnswer(run, e, p);
    forall k: nat | k + 1 < |run| ensures ShowsAt(run, k) { RunShows(run, k); }
    if i + 1 < e { ShowsOn(run, i + 1, e); }
  }

  // ------------------------------------------------------------- destructor

  // The last cell the destructor visits in segment h.
  function To(s: State, h: nat): nat
    requires h < |s.segs|
  {
    if h == |s.segs| - 1 then s.filled else s.segs[h].enq
  }

  lemma LastNumber(s: State, h: nat)
    requires Inv(s) && h < |s.segs|
    ensures Number(h, To(s, h)) <= |s.pushed| && s.segs[h].deq <= To(s, h) <= K
    ensures h == |s.segs| - 1 ==> Number(h, To(s, h)) == |s.pushed|
  {
    if h < |s.segs| - 1 { NumberLess(h, K, |s.segs| - 1, s.filled); }
  }

  lemma CellsAre(s: State, h: nat, k: nat)
    requires Inv(s) && h < |s.segs| && s.segs[h].deq + k < To(s, h) <= K
    ensures Number(h, s.segs[h].deq) + k < |s.pushed|
    ensures s.segs[h].cells[s.segs[h].deq + k] == Built(s.pushed[Number(h, s.segs[h].deq) + k])
  {
    LastNumber(s, h);
    assert Number(h, s.segs[h].deq + k) == Number(h, s.segs[h].deq) + k;
  }

  method DestroyCells(cells: seq<Cell>, from: nat, to: nat) returns (destroyed: seq<Cell>)
    requires from <= to <= |cells|
    ensures destroyed == cells[from..to]
  {
    destroyed := [];
    for i := from to to
      invariant destroyed == cells[from..i]
    {
      destroyed := destroyed + [cells[i]];
    }
  }

  // What is destroyed of the segments before h: the elements from the first
  // unclaimed one to those of segment h.
  ghost predicate DestroyedTo(s: State, h: nat, destroyed: seq<Cell>)
    requires h <= |s.segs|
  {
    && |s.taken| + |destroyed| == (if h < |s.segs| then Number(h, s.segs[h].deq) else |s.pushed|)
    && |s.taken| + |destroyed| <= |s.pushed|
    && forall k :: 0 <= k < |destroyed| ==> destroyed[k] == Built(s.pushed[|s.taken| + k])
  }

  lemma DestroyedNext(s: State, h: nat, destroyed: seq<Cell>)
    requires Inv(s) && s.head <= h < |s.segs| && DestroyedTo(s, h, destroyed)
    requires s.segs[h].deq <= To(s, h) <= |s.segs[h].cells|
    ensures DestroyedTo(s, h + 1, destroyed + s.segs[h].cells[s.segs[h].deq..To(s, h)])
  {
    LastNumber(s, h);
    NextSegment(h);
    assert Number(h, To(s, h)) == Number(h, s.segs[h].deq) + (To(s, h) - s.segs[h].deq);
    forall k: nat | s.segs[h].deq + k < To(s, h)
      ensures s.segs[h].cells[s.segs[h].deq..To(s, h)][k] == Built(s.pushed[|s.taken| + |destroyed| + k])
    {
      CellsAre(s, h, k);
    }
  }

  // ~spmc_queue, with no other thread inside: it destroys the elements not yet
  // claimed, published or not, in order.
  method Destroy(s: State) returns (destroyed: seq<Cell>)
    requires Inv(s) && !s.linking
    ensures |destroyed| == |s.pushed| - |s.taken|
    ensures forall k :: 0 <= k < |destroyed| ==> destroyed[k] == Built(s.pushed[|s.taken| + k])
  {
    destroyed := [];
    var h: nat, from: nat := s.head, s.segs[s.head].deq;
    LastNumber(s, s.head);
    while h < |s.segs|
      invariant s.head <= h <= |s.segs| && (h < |s.segs| ==> from == s.segs[h].deq)
      invariant DestroyedTo(s, h, destroyed)
    {
      LastNumber(s, h);
      DestroyedNext(s, h, destroyed);
      var to := if h == |s.segs| - 1 then s.filled else s.segs[h].enq;
      var cells := DestroyCells(s.segs[h].cells, from, to);
      destroyed := destroyed + cells;
      h, from := h + 1, 0;
    }
  }
}
