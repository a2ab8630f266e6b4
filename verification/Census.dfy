/** The census of mutexes and reference counts (tools/census/threadcensus.c): a
    table with open addressing, retired slots that are reused and swept, the
    totals of what was retired, and the busiest of it. */
module Census {
  import opened Basics

  const TOMB := 1
  const TOP := 20
  const MAX_OWNERS := 8

  // A slot: key 0 was never used, TOMB is retired.
  datatype Entry = Entry(key: nat, locks: nat, owners: seq<nat>, nowners: nat)

  datatype Kept = Kept(key: nat, locks: nat, nowners: nat)

  // What the table stands for: the events on an object and its threads.
  datatype Object = Object(events: nat, threads: set<nat>)

  function Blank(key: nat): Entry {
    Entry(key, 0, [], 0)
  }

  predicate Live(x: Entry) {
    x.key > TOMB
  }

  // The mask of the source, for a size that is a power of two.
  function Slot(size: nat, h: nat, probe: nat): nat
    requires h < size && probe < size
  {
    if h + probe < size then h + probe else h + probe - size
  }

  function Distance(size: nat, h: nat, i: nat): nat
    requires h < size && i < size
  {
    if h <= i then i - h else i - h + size
  }

  function After(size: nat, i: nat): nat
    requires i < size
  {
    if i + 1 < size then i + 1 else 0
  }

  function Before(size: nat, i: nat): nat
    requires i < size
  {
    if i == 0 then size - 1 else i - 1
  }

  lemma SlotAfter(size: nat, h: nat, p: nat)
    requires h < size && p + 1 < size
    ensures Slot(size, h, p + 1) == After(size, Slot(size, h, p))
  {}

  // ---------------------------------------------------------------- the slots

  ghost predicate Once(es: seq<Entry>) {
    forall i, j :: 0 <= i < j < |es| && Live(es[i]) ==> es[i].key != es[j].key
  }

  // No never-used slot lies between a key's home and its slot.
  ghost predicate Probes(es: seq<Entry>, home: nat -> nat) {
    forall i, p ::
      0 <= i < |es| && Live(es[i]) && home(es[i].key) < |es| && 0 <= p < Distance(|es|, home(es[i].key), i) ==>
      es[Slot(|es|, home(es[i].key), p)].key != 0
  }

  ghost predicate Homes(home: nat -> nat, size: nat) {
    forall k :: home(k) < size
  }

  ghost predicate SlotsOk(es: seq<Entry>, home: nat -> nat) {
    && Once(es) && Probes(es, home) && Homes(home, |es|)
    && forall i :: 0 <= i < |es| && !Live(es[i]) ==> es[i] == Blank(es[i].key)
  }

  lemma InsertOk(es: seq<Entry>, home: nat -> nat, key: nat, p: nat)
    requires SlotsOk(es, home) && key > TOMB && forall i :: 0 <= i < |es| ==> es[i].key != key
    requires p < |es| && forall q :: 0 <= q < p ==> es[Slot(|es|, home(key), q)].key != 0
    requires !Live(es[Slot(|es|, home(key), p)])
    ensures SlotsOk(es[Slot(|es|, home(key), p) := Blank(key)], home)
  {}

  // A slot before a never-used one may become never-used.
  lemma SweepOk(es: seq<Entry>, home: nat -> nat, j: nat)
    requires SlotsOk(es, home) && j < |es| && es[After(|es|, j)].key == 0
    ensures SlotsOk(es[j := Blank(0)], home)
  {
    forall i, p | 0 <= i < |es| && i != j && Live(es[i]) && 0 <= p < Distance(|es|, home(es[i].key), i)
      ensures Slot(|es|, home(es[i].key), p) != j
    {
      if p + 1 < Distance(|es|, home(es[i].key), i) { SlotAfter(|es|, home(es[i].key), p); }
    }
  }

  lemma TombOk(es: seq<Entry>, home: nat -> nat, j: nat)
    requires SlotsOk(es, home) && j < |es|
    ensures SlotsOk(es[j := Blank(TOMB)], home)
  {}

  // A retired slot is not followed by a never-used one, slot b excepted.
  ghost predicate SweptBut(es: seq<Entry>, b: int) {
    forall i :: 0 <= i < |es| && i != b && es[i].key == TOMB ==> es[After(|es|, i)].key != 0
  }

  // So a probe that meets a retired slot goes on to a key: of the slots after
  // it the first that is not retired is live, unless all are retired.
  lemma {:induction false} RetiredLeadsOn(es: seq<Entry>, i: nat, n: nat)
    requires SweptBut(es, -1) && i < |es| && n < |es| && es[i].key == TOMB
    ensures (exists d: nat :: d <= n && LiveAt(es, i, d)) || forall q :: 0 <= q <= n ==>
            es[Slot(|es|, i, q)].key == TOMB
  {
    if n > 0 {
      RetiredLeadsOn(es, i, n - 1);
      SlotAfter(|es|, i, n - 1);
      if forall q :: 0 <= q <= n - 1 ==> es[Slot(|es|, i, q)].key == TOMB {
        assert es[Slot(|es|, i, n - 1)].key == TOMB && es[Slot(|es|, i, n)].key != 0;
        assert Live(es[Slot(|es|, i, n)]) ==> LiveAt(es, i, n);
      }
    }
  }

  // Slot i + d is live, and those from i to it are retired.
  ghost predicate LiveAt(es: seq<Entry>, i: nat, d: nat) {
    && i < |es| && d < |es| && Live(es[Slot(|es|, i, d)])
    && forall q :: 0 <= q < d ==> es[Slot(|es|, i, q)].key == TOMB
  }

  // ------------------------------------------------------ what the slots count

  function Sum(es: seq<Entry>): nat {
    if es == [] then 0 else Sum(es[..|es| - 1]) + es[|es| - 1].locks
  }

  lemma {:induction false} SumUpdate(es: seq<Entry>, i: nat, x: Entry)
    requires i < |es|
    ensures Sum(es[i := x]) == Sum(es) - es[i].locks + x.locks
  {
    var n := |es| - 1;
    if i == n {
      assert es[i := x][..n] == es[..n];
    } else {
      assert es[i := x][..n] == es[..n][i := x];
      SumUpdate(es[..n], i, x);
    }
  }

  // A slot's record of an object: its events, its threads as far as they are
  // told apart, and their number up to one more than that.
  ghost predicate Records(x: Entry, o: Object) {
    && x.locks == o.events && x.nowners == Min(|o.threads|, MAX_OWNERS + 1)
    && |x.owners| == Min(x.nowners, MAX_OWNERS)
    && (forall t :: t in x.owners ==> t in o.threads)
    && (|o.threads| <= MAX_OWNERS ==> forall t :: t in o.threads ==> t in x.owners)
  }

  ghost predicate Has(es: seq<Entry>, k: nat) {
    exists i :: 0 <= i < |es| && es[i].key == k
  }

  // The table holds exactly the objects of `contents`.
  ghost predicate Holds(es: seq<Entry>, contents: map<nat, Object>) {
    && (forall k :: k in contents ==> k > TOMB && Has(es, k))
    && (forall i :: 0 <= i < |es| && Live(es[i]) ==> es[i].key in contents && Records(es[i], contents[es[i].key]))
  }

  // ---------------------------------------------------------------- the busiest

  // kept and dropped together are all that is gone, and nothing dropped has
  // more events than anything kept; while there is room nothing is dropped.
  ghost predicate Busiest(kept: seq<Kept>, dropped: multiset<Kept>, gone: multiset<Kept>) {
    && |kept| <= TOP && gone == multiset(kept) + dropped
    && (|kept| < TOP ==> dropped == multiset{})
    && forall d, k :: d in dropped && 0 <= k < |kept| ==> d.locks <= kept[k].locks
  }

  lemma BusiestAdds(kept: seq<Kept>, dropped: multiset<Kept>, gone: multiset<Kept>, k: Kept)
    requires Busiest(kept, dropped, gone) && |kept| < TOP
    ensures Busiest(kept + [k], dropped, gone + multiset{k})
  {}

  lemma BusiestDrops(kept: seq<Kept>, dropped: multiset<Kept>, gone: multiset<Kept>, k: Kept)
    requires Busiest(kept, dropped, gone) && |kept| == TOP && forall i :: 0 <= i < TOP ==> k.locks <= kept[i].locks
    ensures Busiest(kept, dropped + multiset{k}, gone + multiset{k})
  {}

  lemma BusiestReplaces(kept: seq<Kept>, dropped: multiset<Kept>, gone: multiset<Kept>, k: Kept, at: nat)
    requires Busiest(kept, dropped, gone) && |kept| == TOP && at < TOP && kept[at].locks < k.locks
    requires forall i :: 0 <= i < TOP ==> kept[at].locks <= kept[i].locks
    ensures Busiest(kept[at := k], dropped + multiset{kept[at]}, gone + multiset{k})
  {}

  // Of the retired objects with lo to hi threads, how many, and their events.
  function CountOf(gone: seq<Kept>, lo: nat, hi: nat): nat {
    if gone == [] then 0
    else CountOf(gone[..|gone| - 1], lo, hi) + if lo <= gone[|gone| - 1].nowners <= hi then 1 else 0
  }

  function EventsOf(gone: seq<Kept>, lo: nat, hi: nat): nat {
    if gone == [] then 0
    else
      var last := gone[|gone| - 1];
      EventsOf(gone[..|gone| - 1], lo, hi) + if lo <= last.nowners <= hi then last.locks else 0
  }

  lemma Appended(gone: seq<Kept>, k: Kept, lo: nat, hi: nat)
    ensures CountOf(gone + [k], lo, hi) == CountOf(gone, lo, hi) + if lo <= k.nowners <= hi then 1 else 0
    ensures EventsOf(gone + [k], lo, hi) == EventsOf(gone, lo, hi) + if lo <= k.nowners <= hi then k.locks else 0
  {
    assert (gone + [k])[..|gone|] == gone;
  }

  // What is retired, with an object of at least one event.
  ghost function AllGone(gone: seq<Kept>, key: nat, o: Object): seq<Kept> {
    if o.events == 0 then gone else gone + [Kept(key, o.events, Min(|o.threads|, MAX_OWNERS + 1))]
  }

  // An object at a key: one more event, by thread me.
  ghost function Noted(contents: map<nat, Object>, key: nat, me: nat): map<nat, Object> {
    var was := if key in contents then contents[key] else Object(0, {});
    contents[key := Object(was.events + 1, was.threads + {me})]
  }

  lemma NotedIs(contents: map<nat, Object>, key: nat, me: nat)
    ensures var noted := Noted(contents, key, me);
            && noted.Keys == contents.Keys + {key}
            && noted[key].events == (if key in contents then contents[key].events else 0) + 1
            && noted[key].threads == (if key in contents then contents[key].threads else {}) + {me}
            && forall k :: k in contents && k != key ==> noted[k] == contents[k]
  {}

  lemma NotedOnce(before: map<nat, Object>, found: map<nat, Object>, key: nat, me: nat)
    requires found == if key in before then before else before[key := Object(0, {})]
    ensures Noted(found, key, me) == Noted(before, key, me)
  {}

  // One step of the sweep, at retired slot k before a never-used one.
  lemma SweptOne(es: seq<Entry>, home: nat -> nat, contents: map<nat, Object>, k: nat)
    requires SlotsOk(es, home) && Holds(es, contents) && SweptBut(es, k)
    requires k < |es| && es[k].key == TOMB && es[After(|es|, k)].key == 0
    ensures SlotsOk(es[k := Blank(0)], home) && Holds(es[k := Blank(0)], contents)
    ensures SweptBut(es[k := Blank(0)], Before(|es|, k)) && Sum(es[k := Blank(0)]) == Sum(es)
  {
    SweepOk(es, home, k);
    RemoveHolds(es, contents, k, 0);
    assert contents - {TOMB} == contents;
    SumUpdate(es, k, Blank(0));
  }

  class Table {
    const mapped: bool
    const size: nat
    const home: nat -> nat
    const e: array<Entry>
    const top: array<Kept>
    var nkept: nat
    var topMin: nat
    var overflow: nat
    var retCount: nat
    var retEvents: nat
    var retSingle: nat
    var retSingleEvents: nat
    var retManyEvents: nat
    ghost var contents: map<nat, Object>
    ghost var recorded: nat
    ghost var gone: seq<Kept>
    ghost var dropped: multiset<Kept>

    ghost predicate Entries()
      reads this`contents, e
    {
      e.Length == size && SlotsOk(e[..], home) && Holds(e[..], contents)
    }

    ghost predicate Slots()
      reads this`contents, e
    {
      Entries() && SweptBut(e[..], -1)
    }

    ghost predicate TopValid()
      reads this`nkept, this`topMin, this`dropped, this`gone, top
    {
      && top.Length == TOP && nkept <= TOP && Busiest(top[..nkept], dropped, multiset(gone))
      && (nkept == TOP ==> forall k :: 0 <= k < TOP ==> topMin <= top[k].locks)
      && (nkept == TOP ==> exists k :: 0 <= k < TOP && topMin == top[k].locks)
    }

    ghost predicate TotalsOf(gone: seq<Kept>)
      reads this`retCount, this`retEvents, this`retSingle, this`retSingleEvents, this`retManyEvents
    {
      && retCount == |gone| && retEvents == EventsOf(gone, 0, MAX_OWNERS + 1)
      && retSingle == CountOf(gone, 1, 1) && retSingleEvents == EventsOf(gone, 1, 1)
      && retManyEvents == EventsOf(gone, MAX_OWNERS + 1, MAX_OWNERS + 1)
    }

    ghost predicate Valid()
      reads this, e, top
    {
      && Slots() && TopValid() && TotalsOf(gone)
      && recorded == Sum(e[..]) + retEvents + overflow && (!mapped ==> contents == map[])
    }

    method Lookup(key: nat) returns (r: Option<nat>)
      requires Slots() && key > TOMB
      ensures r.Some? ==> r.value < size && e[r.value].key == key
      ensures r.None? ==> forall i :: 0 <= i < size ==> e[i].key != key
    {
      var h := home(key);
      for probe := 0 to size
        invariant forall p :: 0 <= p < probe ==> e[Slot(size, h, p)].key != key
      {
        var i := Slot(size, h, probe);
        if e[i].key == key { return Some(i); }
        if e[i].key == 0 {
          Stops(e[..], home, key, probe);
          return None;
        }
      }
      forall i | 0 <= i < size ensures e[i].key != key {
        assert Slot(size, h, Distance(size, h, i)) == i;
      }
      r := None;
    }

    constructor (size: nat, home: nat -> nat, mapped: bool)
      requires size > 0 && Homes(home, size)
      ensures Valid() && fresh(e) && fresh(top) && this.size == size && this.home == home && this.mapped == mapped
      ensures contents == map[] && recorded == 0 && gone == []
    {
      this.mapped, this.size, this.home := mapped, size, home;
      e := new Entry[size](i => Blank(0));
      top := new Kept[TOP](i => Kept(0, 0, 0));
      nkept, topMin, overflow, retCount, retEvents, retSingle, retSingleEvents, retManyEvents := 0, 0, 0, 0, 0, 0, 0, 0;
      contents, recorded, gone, dropped := map[], 0, [], multiset{};
      new;
      AllBlank(e[..]);
    }

    // The slot of a key; with insert, a new one when there is none and a slot
    // is free.
    method Find(key: nat, insert: bool) returns (r: Option<nat>)
      requires Slots()
      modifies this`contents, e
      ensures Slots() && Sum(e[..]) == Sum(old(e[..]))
      ensures r.Some? ==> mapped && r.value < size && e[r.value].key == key > TOMB && (insert || key in old(contents))
      ensures contents ==
              if r.Some? && key !in old(contents) then old(contents)[key := Object(0, {})] else old(contents)
      ensures r.None? ==>
                || !mapped || key <= TOMB
                || (key !in old(contents) && (insert ==> forall i :: 0 <= i < size ==> Live(e[i])))
    {
      if !mapped || key <= TOMB { return None; }
      r := Lookup(key);
      if r.None? && insert { r := Insert(key); }
    }

    // In the first retired or never-used slot of the probe.
    method Insert(key: nat) returns (r: Option<nat>)
      requires Slots() && mapped && key > TOMB && forall i :: 0 <= i < size ==> e[i].key != key
      modifies this`contents, e
      ensures Slots() && Sum(e[..]) == Sum(old(e[..]))
      ensures r.Some? ==> r.value < size && e[r.value].key == key
      ensures contents == if r.Some? then old(contents)[key := Object(0, {})] else old(contents)
      ensures r.None? ==> forall i :: 0 <= i < size ==> Live(e[i])
    {
      var h := home(key);
      for probe := 0 to size
        invariant forall p :: 0 <= p < probe ==> Live(e[Slot(size, h, p)])
        invariant contents == old(contents) && e[..] == old(e[..])
      {
        var i := Slot(size, h, probe);
        if !Live(e[i]) {
          Place(key, probe);
          return Some(i);
        }
      }
      forall i | 0 <= i < size ensures Live(e[i]) {
        assert Slot(size, h, Distance(size, h, i)) == i;
      }
      r := None;
    }

    method Place(key: nat, probe: nat)
      requires Slots() && mapped && key > TOMB && probe < size && forall i :: 0 <= i < size ==> e[i].key != key
      requires !Live(e[Slot(size, home(key), probe)])
      requires forall p :: 0 <= p < probe ==> Live(e[Slot(size, home(key), p)])
      modifies this`contents, e
      ensures Slots() && Sum(e[..]) == Sum(old(e[..])) && e[Slot(size, home(key), probe)].key == key
      ensures contents == old(contents)[key := Object(0, {})]
    {
      var i := Slot(size, home(key), probe);
      InsertOk(e[..], home, key, probe);
      InsertHolds(e[..], contents, i, key);
      SumUpdate(e[..], i, Blank(key));
      e[i] := e[i].(key := key);
      contents := contents[key := Object(0, {})];
      assert e[..] == old(e[..])[i := Blank(key)];
    }

    // One event on an object, by thread me.
    method NoteIn(key: nat, me: nat)
      requires Valid()
      modifies this`contents, this`recorded, this`overflow, e
      ensures Valid() && recorded == old(recorded) + 1
      ensures overflow == old(overflow) ==>
                && key > TOMB && contents.Keys == old(contents).Keys + {key}
                && contents[key].events == (if key in old(contents) then old(contents)[key].events else 0) + 1
                && contents[key].threads == (if key in old(contents) then old(contents)[key].threads else {}) + {me}
                && forall k :: k in old(contents) && k != key ==> contents[k] == old(contents)[k]
      ensures overflow != old(overflow) ==>
                && overflow == old(overflow) + 1 && contents == old(contents)
                && (!mapped || key <= TOMB || (key !in old(contents) && forall i :: 0 <= i < size ==> Live(e[i])))
    {
      NoteSlot(key, me);
      NotedIs(old(contents), key, me);
    }

    method NoteSlot(key: nat, me: nat)
      requires Slots() && recorded == Sum(e[..]) + retEvents + overflow
      modifies this`contents, this`recorded, this`overflow, e
      ensures Slots() && recorded == Sum(e[..]) + retEvents + overflow == old(recorded) + 1
      ensures overflow == old(overflow) ==> mapped && key > TOMB && contents == Noted(old(contents), key, me)
      ensures overflow != old(overflow) ==>
                && overflow == old(overflow) + 1 && contents == old(contents)
                && (!mapped || key <= TOMB || (key !in old(contents) && forall i :: 0 <= i < size ==> Live(e[i])))
    {
      recorded := recorded + 1;
      var at := Find(key, true);
      if at.None? {
        overflow := overflow + 1;
      } else {
        NotedOnce(old(contents), contents, key, me);
        CountEvent(at.value, me);
      }
    }

    method CountEvent(i: nat, me: nat)
      requires Slots() && i < size && Live(e[i])
      modifies this`contents, e
      ensures Slots() && Sum(e[..]) == Sum(old(e[..])) + 1
      ensures contents == Noted(old(contents), old(e[i].key), me)
    {
      SlotRecords(i);
      var x := e[i];
      ghost var o := contents[x.key];
      OwnerRecords(x, o, me);
      var y := AddOwner(x.(locks := x.locks + 1), me);
      Write(i, y, Noted(contents, x.key, me)[x.key]);
    }

    lemma SlotRecords(i: nat)
      requires Slots() && i < size && Live(e[i])
      ensures e[i].key in contents && Records(e[i], contents[e[i].key])
    {}

    // An object is gone: its counts go into the totals and its slot is freed.
    method Retire(key: nat)
      requires Valid()
      modifies this, e, top
      ensures Valid() && recorded == old(recorded) && overflow == old(overflow)
      ensures contents == old(contents) - {key}
      ensures key !in old(contents) || old(contents)[key].events == 0 ==> gone == old(gone)
      ensures key in old(contents) && old(contents)[key].events > 0 ==>
                && |gone| == |old(gone)| + 1 && gone[..|old(gone)|] == old(gone)
                && gone[|old(gone)|].key == key && gone[|old(gone)|].locks == old(contents)[key].events
                && var n := |old(contents)[key].threads|;
                   gone[|old(gone)|].nowners == if n <= MAX_OWNERS then n else MAX_OWNERS + 1
    {
      if !mapped || key <= TOMB {
        assert key !in contents;
        return;
      }
      var at := Lookup(key);
      if at.None? {
        assert key !in contents;
        return;
      }
      RetireSlot(at.value);
    }

    method RetireSlot(i: nat)
      requires Valid() && mapped && i < size && Live(e[i])
      modifies this, e, top
      ensures Valid() && recorded == old(recorded) && overflow == old(overflow)
      ensures old(e[i]).key in old(contents) && contents == old(contents) - {old(e[i]).key}
      ensures gone == AllGone(old(gone), old(e[i]).key, old(contents)[old(e[i]).key])
    {
      ghost var x := e[i];
      CountGone(i);
      assert e[i] == x;
      Release(i);
    }

    method CountGone(i: nat)
      requires Valid() && i < size && Live(e[i])
      modifies this`retCount, this`retEvents, this`retSingle, this`retSingleEvents, this`retManyEvents
      modifies this`nkept, this`topMin, this`dropped, this`gone, top
      ensures Slots() && TopValid() && TotalsOf(gone)
      ensures recorded == Sum(e[..]) - e[i].locks + retEvents + overflow
      ensures e[i].key in contents && gone == AllGone(old(gone), e[i].key, contents[e[i].key])
    {
      AddRetired(e[i], contents[e[i].key]);
    }

    // Its events are counted as gone; now they go from the table.
    method Release(i: nat)
      requires Slots() && TopValid() && TotalsOf(gone) && mapped && i < size && Live(e[i])
      requires recorded == Sum(e[..]) - e[i].locks + retEvents + overflow
      modifies this`contents, e
      ensures Valid() && contents == old(contents) - {old(e[i]).key}
    {
      FreeSlot(i);
    }

    method AddRetired(x: Entry, ghost o: Object)
      requires TotalsOf(gone) && TopValid() && Records(x, o)
      modifies this`retCount, this`retEvents, this`retSingle, this`retSingleEvents, this`retManyEvents
      modifies this`nkept, this`topMin, this`dropped, this`gone, top
      ensures TotalsOf(gone) && TopValid() && gone == AllGone(old(gone), x.key, o)
      ensures retEvents == old(retEvents) + x.locks
    {
      if x.locks > 0 {
        var k := Kept(x.key, x.locks, x.nowners);
        AddTotals(k);
        Keep(k);
      }
    }

    method AddTotals(k: Kept)
      requires TotalsOf(gone) && k.nowners <= MAX_OWNERS + 1
      modifies this`retCount, this`retEvents, this`retSingle, this`retSingleEvents, this`retManyEvents
      ensures TotalsOf(gone + [k]) && retEvents == old(retEvents) + k.locks
    {
      Appended(gone, k, 0, MAX_OWNERS + 1);
      Appended(gone, k, 1, 1);
      Appended(gone, k, MAX_OWNERS + 1, MAX_OWNERS + 1);
      retCount, retEvents := retCount + 1, retEvents + k.locks;
      if k.nowners == 1 { retSingle, retSingleEvents := retSingle + 1, retSingleEvents + k.locks; }
      if k.nowners > MAX_OWNERS { retManyEvents := retManyEvents + k.locks; }
    }

    // The slot becomes retired, or never-used if the next one is; and then so
    // do the retired slots before it.
    method FreeSlot(i: nat)
      requires Slots() && i < size && Live(e[i])
      modifies this`contents, e
      ensures Slots() && contents == old(contents) - {old(e[i]).key}
      ensures Sum(e[..]) == Sum(old(e[..])) - old(e[i]).locks
    {
      var mark := if e[After(size, i)].key == 0 then 0 else TOMB;
      if mark == 0 { SweepOk(e[..], home, i); } else { TombOk(e[..], home, i); }
      RemoveHolds(e[..], contents, i, mark);
      SumUpdate(e[..], i, Blank(mark));
      contents := contents - {e[i].key};
      e[i] := Blank(mark);
      assert e[..] == old(e[..])[i := Blank(mark)];
      if mark == 0 { Sweep(i); }
    }

    method Sweep(i: nat)
      requires Entries() && i < size && e[i].key == 0 && SweptBut(e[..], Before(size, i))
      modifies e
      ensures Slots() && Sum(e[..]) == Sum(old(e[..]))
    {
      var j: nat, back: nat := i, 0;
      while e[Before(size, j)].key == TOMB
        invariant j < size && back < size && e[j].key == 0 && e[i].key == 0 && i == Slot(size, j, back)
        invariant Entries() && SweptBut(e[..], Before(size, j)) && Sum(e[..]) == Sum(old(e[..]))
        decreases size - back
      {
        var k := Before(size, j);
        SweptOne(e[..], home, contents, k);
        ghost var es := e[..];
        e[k] := Blank(0);
        assert e[..] == es[k := Blank(0)];
        j, back := k, back + 1;
      }
    }

    // A retired object is kept if it is among the busiest.
    method Keep(k: Kept)
      requires TopValid()
      modifies this`nkept, this`topMin, this`dropped, this`gone, top
      ensures TopValid() && gone == old(gone) + [k]
    {
      if nkept == TOP && k.locks <= topMin {
        BusiestDrops(top[..nkept], dropped, multiset(gone), k);
        assert multiset(gone + [k]) == multiset(gone) + multiset{k};
        gone, dropped := gone + [k], dropped + multiset{k};
        return;
      }
      Admit(k);
      if nkept == TOP {
        var m := LeastBusy();
        topMin := top[m].locks;
      }
    }

    // In a free place, or in that of the least busy if it is busier.
    method Admit(k: Kept)
      requires top.Length == TOP && nkept <= TOP && Busiest(top[..nkept], dropped, multiset(gone))
      modifies this`nkept, this`dropped, this`gone, top
      ensures nkept <= TOP && Busiest(top[..nkept], dropped, multiset(gone)) && gone == old(gone) + [k]
    {
      assert multiset(gone + [k]) == multiset(gone) + multiset{k};
      var at := nkept;
      ghost var was, all := top[..], multiset(gone);
      gone := gone + [k];
      if at == TOP {
        at := LeastBusy();
        if top[at].locks >= k.locks {
          BusiestDrops(was[..TOP], dropped, all, k);
          dropped := dropped + multiset{k};
        } else {
          BusiestReplaces(was[..TOP], dropped, all, k, at);
          dropped := dropped + multiset{was[at]};
          top[at] := k;
          assert top[..nkept] == was[..TOP][at := k];
        }
      } else {
        BusiestAdds(was[..at], dropped, all, k);
        nkept := at + 1;
        top[at] := k;
        assert top[..nkept] == was[..at] + [k];
      }
    }

    method LeastBusy() returns (at: nat)
      requires top.Length == TOP
      ensures at < TOP && forall i :: 0 <= i < TOP ==> top[at].locks <= top[i].locks
    {
      at := 0;
      for i := 1 to TOP
        invariant at < TOP && forall j :: 0 <= j < i ==> top[at].locks <= top[j].locks
      {
        if top[i].locks < top[at].locks { at := i; }
      }
    }

    // A live slot rewritten for its object.
    method Write(i: nat, x: Entry, ghost o: Object)
      requires Slots() && i < size && Live(e[i]) && x.key == e[i].key && Records(x, o)
      modifies this`contents, e
      ensures Slots() && contents == old(contents)[x.key := o]
      ensures Sum(e[..]) == Sum(old(e[..])) - old(e[i]).locks + x.locks
    {
      UpdateOk(e[..], home, contents, i, x, o);
      SumUpdate(e[..], i, x);
      e[i] := x;
      contents := contents[x.key := o];
      assert e[..] == old(e[..])[i := x];
    }
  }

  // The threads of an entry after me: remembered while there is room, and then
  // only that there were more.
  function Owned(x: Entry, me: nat): Entry {
    if me in x.owners || x.nowners > MAX_OWNERS then x
    else if x.nowners == MAX_OWNERS then x.(nowners := MAX_OWNERS + 1)
    else x.(owners := x.owners + [me], nowners := x.nowners + 1)
  }

  method AddOwner(x: Entry, me: nat) returns (y: Entry)
    requires |x.owners| == Min(x.nowners, MAX_OWNERS)
    ensures y == Owned(x, me)
  {
    for i := 0 to Min(x.nowners, MAX_OWNERS)
      invariant me !in x.owners[..i]
    {
      if x.owners[i] == me { return x; }
    }
    assert x.owners[..|x.owners|] == x.owners;
    if x.nowners > MAX_OWNERS { return x; }
    if x.nowners == MAX_OWNERS { return x.(nowners := MAX_OWNERS + 1); }
    y := x.(owners := x.owners + [me], nowners := x.nowners + 1);
  }

  lemma OwnerRecords(x: Entry, o: Object, me: nat)
    requires Records(x, o)
    ensures Records(Owned(x.(locks := x.locks + 1), me), Object(o.events + 1, o.threads + {me}))
  {
    if me in o.threads { assert o.threads + {me} == o.threads; }
  }

  lemma UpdateOk(es: seq<Entry>, home: nat -> nat, contents: map<nat, Object>, i: nat, x: Entry, o: Object)
    requires SlotsOk(es, home) && Holds(es, contents) && i < |es| && Live(x) && x.key == es[i].key && Records(x, o)
    ensures SlotsOk(es[i := x], home) && Holds(es[i := x], contents[x.key := o])
  {
    var es' := es[i := x];
    assert es'[i] == x;
    forall k | k in contents && k != x.key ensures Has(es', k) {
      var j :| 0 <= j < |es| && es[j].key == k;
      assert es'[j].key == k;
    }
    SameKeys(es, es', home);
  }

  lemma SameKeys(es: seq<Entry>, es': seq<Entry>, home: nat -> nat)
    requires SlotsOk(es, home) && |es'| == |es| && forall j :: 0 <= j < |es| ==> es'[j].key == es[j].key
    requires forall j :: 0 <= j < |es| && !Live(es[j]) ==> es'[j] == es[j]
    ensures SlotsOk(es', home)
  {}

  lemma AllBlank(es: seq<Entry>)
    requires forall i :: 0 <= i < |es| ==> es[i] == Blank(0)
    ensures Sum(es) == 0
  {
    if es != [] { AllBlank(es[..|es| - 1]); }
  }

  lemma RemoveHolds(es: seq<Entry>, contents: map<nat, Object>, i: nat, mark: nat)
    requires Holds(es, contents) && Once(es) && i < |es| && mark <= TOMB
    ensures Holds(es[i := Blank(mark)], contents - {es[i].key})
  {
    var es' := es[i := Blank(mark)];
    forall k | k in contents && k != es[i].key ensures Has(es', k) {
      var j :| 0 <= j < |es| && es[j].key == k;
      assert es'[j].key == k;
    }
  }

  lemma InsertHolds(es: seq<Entry>, contents: map<nat, Object>, i: nat, key: nat)
    requires Holds(es, contents) && i < |es| && !Live(es[i]) && key > TOMB
    requires forall j :: 0 <= j < |es| ==> es[j].key != key
    ensures Holds(es[i := Blank(key)], contents[key := Object(0, {})])
  {
    var es' := es[i := Blank(key)];
    assert es'[i].key == key;
    forall k | k in contents ensures Has(es', k) {
      var j :| 0 <= j < |es| && es[j].key == k;
      assert es'[j].key == k;
    }
  }

  // A key is not beyond a never-used slot.
  lemma Stops(es: seq<Entry>, home: nat -> nat, key: nat, probe: nat)
    requires SlotsOk(es, home) && key > TOMB && probe < |es| && es[Slot(|es|, home(key), probe)].key == 0
    requires forall p :: 0 <= p < probe ==> es[Slot(|es|, home(key), p)].key != key
    ensures forall i :: 0 <= i < |es| ==> es[i].key != key
  {
    forall i | 0 <= i < |es| ensures es[i].key != key {
      assert Slot(|es|, home(key), Distance(|es|, home(key), i)) == i;
    }
  }
}
