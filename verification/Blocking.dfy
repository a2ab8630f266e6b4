/** The search for operations that may block (BlockingQuery of
    mlir/lib/WTC/Transforms/Blocking.cpp): a walk of the call graph that
    remembers what it finds and cuts cycles. What each operation and each
    function without a body does by itself is given. */
module Blocking {
  import opened Basics

  datatype Kind =
    | Allocates | Waits | Threading | InputOutput | Sleeps | Throws | MayThrow | Opaque | UnknownTarget | Assembly
    | Refused

  // How a function without a body here may block, read from its name.
  datatype External = External(kind: Kind, threading: bool)

  // An operation: nothing to the search, blocking by itself in one way, or a
  // call. A direct call has one target; an indirect one those it may reach.
  datatype Op =
    | Plain
    | Does(kind: Kind)
    | Call(targets: seq<nat>, direct: bool, nothrow: bool, ownerless: bool)

  // A function: its operations in the order of the walk, whether its body is
  // here and not replaceable, and what its name says.
  datatype Func = Func(body: seq<Op>, followed: bool, ext: Option<External>)

  // An operation, by its function and place.
  datatype Loc = Loc(f: nat, i: nat)

  datatype Site = Site(leaf: Loc, kind: Kind, callee: Option<nat>, threading: bool, chain: seq<Loc>, via: seq<nat>)

  // The functions, the kinds the asking pass accepts, and its own refusals:
  // of an operation in the code asked about, or in a function it calls.
  datatype Module = Module(funcs: seq<Func>, accepted: set<Kind>, extra: (Loc, bool) -> bool)

  ghost predicate WellFormed(m: Module) {
    forall l, g :: In(m, l) && OpAt(m, l).Call? && g in OpAt(m, l).targets ==> g < |m.funcs|
  }

  predicate In(m: Module, l: Loc) {
    l.f < |m.funcs| && l.i < |m.funcs[l.f].body|
  }

  function OpAt(m: Module, l: Loc): Op
    requires In(m, l)
  {
    m.funcs[l.f].body[l.i]
  }

  // ------------------------------------------------------- what may block

  // How a call to a function that is not followed blocks: a wait first, then a
  // throw, then the rest.
  function ExternalKind(m: Module, nothrow: bool, t: nat): Option<Kind>
    requires t < |m.funcs|
  {
    var ext := m.funcs[t].ext;
    if ext.Some? && (ext.value.kind.Waits? || ext.value.kind.Threading?)
      && ext.value.kind !in m.accepted then Some(ext.value.kind)
    else if !nothrow && MayThrow !in m.accepted then Some(MayThrow)
    else if ext.Some? && ext.value.kind !in m.accepted then Some(ext.value.kind)
    else None
  }

  // The name of function t says that it waits, in a way not accepted.
  predicate NameWaits(m: Module, t: nat)
    requires t < |m.funcs|
  {
    var ext := m.funcs[t].ext;
    ext.Some? && (ext.value.kind == Waits || ext.value.kind == Threading) && ext.value.kind !in m.accepted
  }

  // A call of t, not followed, blocks so: as its name says, or because it may
  // throw, in a way not accepted; an unaccepted wait before a throw before the
  // rest.
  ghost predicate ExternalLeaf(m: Module, nothrow: bool, t: nat, kind: Kind)
    requires t < |m.funcs|
  {
    var ext := m.funcs[t].ext;
    && kind !in m.accepted && ((ext.Some? && ext.value.kind == kind) || (kind == MayThrow && !nothrow))
    && (NameWaits(m, t) ==> ext.value.kind == kind)
    && (!NameWaits(m, t) && !nothrow && MayThrow !in m.accepted ==> kind == MayThrow)
  }

  /** What is computed for such a call is that, and nothing exactly if it does
      not block: it may not throw, or that is accepted, and so is what its name
      says. */
  lemma ExternalKindExactly(m: Module, nothrow: bool, t: nat)
    requires t < |m.funcs|
    ensures forall kind :: ExternalKind(m, nothrow, t) == Some(kind) <==> ExternalLeaf(m, nothrow, t, kind)
    ensures ExternalKind(m, nothrow, t) == None <==>
              && (nothrow || MayThrow in m.accepted)
              && (m.funcs[t].ext.Some? ==> m.funcs[t].ext.value.kind in m.accepted)
  {}

  predicate Skipped(op: Op) {
    op.Call? && op.direct && op.ownerless
  }

  // The operation blocks by itself, in a way not accepted: the pass refuses it,
  // or it does something that blocks, or it calls what is not known, or what is
  // known by its name alone.
  ghost predicate Leaf(m: Module, l: Loc, inCallee: bool, kind: Kind, callee: Option<nat>, threading: bool) {
    && In(m, l)
    && if m.extra(l, inCallee) then kind == Refused && callee == None && !threading
       else
         match OpAt(m, l)
         case Plain => false
         case Does(k) => kind == k && k !in m.accepted && callee == None && !threading
         case Call(targets, direct, nothrow, ownerless) =>
           if direct && ownerless then false
           else if !direct && targets == [] then
             kind == UnknownTarget && UnknownTarget !in m.accepted && callee == None && !threading
           else
             && callee.Some? && callee.value in targets && callee.value < |m.funcs| && !m.funcs[callee.value].followed
             && ExternalLeaf(m, nothrow, callee.value, kind)
             && threading == (m.funcs[callee.value].ext.Some? && m.funcs[callee.value].ext.value.threading)
  }

  ghost predicate HasLeaf(m: Module, l: Loc, inCallee: bool) {
    exists kind, callee, threading :: Leaf(m, l, inCallee, kind, callee, threading)
  }

  // The operation calls g, whose body is followed.
  ghost predicate Follows(m: Module, l: Loc, g: nat) {
    In(m, l) && OpAt(m, l).Call? && !Skipped(OpAt(m, l)) && g in OpAt(m, l).targets && g < |m.funcs|
      && m.funcs[g].followed
  }

  ghost predicate Edge(m: Module, f: nat, g: nat) {
    exists i: nat :: Follows(m, Loc(f, i), g)
  }

  ghost predicate IsPath(m: Module, path: seq<nat>) {
    path != [] && (|path| == 1 || (Edge(m, path[0], path[1]) && IsPath(m, path[1..])))
  }

  ghost predicate LeafIn(m: Module, f: nat) {
    exists i: nat :: HasLeaf(m, Loc(f, i), true)
  }

  ghost predicate Avoids(path: seq<nat>, avoid: set<nat>) {
    forall k :: 0 <= k < |path| ==> path[k] !in avoid
  }

  ghost predicate PathToLeaf(m: Module, f: nat, avoid: set<nat>, path: seq<nat>) {
    IsPath(m, path) && path[0] == f && Avoids(path, avoid) && LeafIn(m, path[|path| - 1])
  }

  // A call path from f, through no function of `avoid`, to one that blocks.
  ghost predicate Reaches(m: Module, f: nat, avoid: set<nat>) {
    exists path :: PathToLeaf(m, f, avoid, path)
  }

  // ------------------------------------------------------------ real sites

  // Where a site begins: its first call, or the leaf.
  function First(s: Site): Loc {
    if s.chain == [] then s.leaf else s.chain[0]
  }

  function Rest(s: Site): Site
    requires s.chain != [] && s.via != []
  {
    s.(chain := s.chain[1..], via := s.via[1..])
  }

  // The chain is a real call path from operation l to the leaf.
  ghost predicate Real(m: Module, s: Site, l: Loc, inCallee: bool)
    decreases |s.chain|
  {
    && |s.via| == |s.chain| && First(s) == l
    && if s.chain == [] then Leaf(m, l, inCallee, s.kind, s.callee, s.threading)
       else
         && Follows(m, l, s.via[0]) && First(Rest(s)).f == s.via[0] && NoneBefore(m, First(Rest(s)))
         && Real(m, Rest(s), First(Rest(s)), true)
  }

  // No operation before l in its function blocks by itself, as a callee.
  ghost predicate NoneBefore(m: Module, l: Loc) {
    forall j: nat :: j < l.i ==> !HasLeaf(m, Loc(l.f, j), true)
  }

  ghost predicate RealIn(m: Module, s: Site, f: nat) {
    First(s).f == f && Real(m, s, First(s), true) && NoneBefore(m, First(s))
  }

  // The way of a site goes through functions of the set alone.
  ghost predicate Through(s: Site, fs: set<nat>) {
    forall k :: 0 <= k < |s.via| ==> s.via[k] in fs
  }

  lemma {:induction false} RealReaches(m: Module, s: Site, f: nat, avoid: set<nat>)
    requires RealIn(m, s, f) && f !in avoid && forall k :: 0 <= k < |s.via| ==> s.via[k] !in avoid
    ensures Reaches(m, f, avoid)
    decreases |s.chain|
  {
    if s.chain == [] {
      assert HasLeaf(m, Loc(f, s.leaf.i), true);
      assert PathToLeaf(m, f, avoid, [f]);
    } else {
      var g := s.via[0];
      RealReaches(m, Rest(s), g, avoid);
      var path :| PathToLeaf(m, g, avoid, path);
      assert Follows(m, Loc(f, s.chain[0].i), g);
      assert PathToLeaf(m, f, avoid, [f] + path);
    }
  }

  // -------------------------------------------------- what finding none means

  // Nothing at operation l, and nothing below it but through `avoid`.
  ghost predicate Clear(m: Module, l: Loc, inCallee: bool, avoid: set<nat>) {
    !HasLeaf(m, l, inCallee) && forall g :: Follows(m, l, g) ==> g in avoid || !Reaches(m, g, avoid)
  }

  lemma {:induction false} Suffix(m: Module, f: nat, avoid: set<nat>, path: seq<nat>, j: nat)
    requires PathToLeaf(m, f, avoid, path) && j < |path|
    ensures PathToLeaf(m, path[j], avoid, path[j..])
    decreases j
  {
    if j > 0 {
      assert path[1..][|path| - 2] == path[|path| - 1];
      Suffix(m, path[1], avoid, path[1..], j - 1);
      assert path[1..][j - 1..] == path[j..];
    }
  }

  // A path to a leaf from f, cut after its last visit of f.
  lemma {:induction false} CutAfterLast(m: Module, f: nat, avoid: set<nat>, path: seq<nat>)
    requires PathToLeaf(m, f, avoid, path)
    ensures LeafIn(m, f) || exists g :: Edge(m, f, g) && g !in avoid + {f} && Reaches(m, g, avoid + {f})
    decreases |path|
  {
    if |path| > 1 {
      var rest := path[1..];
      Suffix(m, f, avoid, path, 1);
      if f in rest {
        var j :| 0 <= j < |rest| && rest[j] == f;
        Suffix(m, path[1], avoid, rest, j);
        CutAfterLast(m, f, avoid, rest[j..]);
      } else {
        assert PathToLeaf(m, path[1], avoid + {f}, rest);
      }
    }
  }

  lemma AvoidingLess(m: Module, f: nat, avoid: set<nat>)
    ensures Reaches(m, f, avoid) ==> Reaches(m, f, {})
  {
    if Reaches(m, f, avoid) {
      var path :| PathToLeaf(m, f, avoid, path);
      assert PathToLeaf(m, f, {}, path);
    }
  }

  // If f reaches a leaf, an operation of its body is not clear, even once f
  // itself is avoided.
  lemma ReachesBy(m: Module, f: nat, avoid: set<nat>)
    requires Reaches(m, f, avoid)
    ensures exists i: nat :: In(m, Loc(f, i)) && !Clear(m, Loc(f, i), true, avoid + {f})
    ensures exists i: nat :: In(m, Loc(f, i)) && !Clear(m, Loc(f, i), true, {})
  {
    var path :| PathToLeaf(m, f, avoid, path);
    CutAfterLast(m, f, avoid, path);
    if LeafIn(m, f) {
      var i: nat :| HasLeaf(m, Loc(f, i), true);
      assert !Clear(m, Loc(f, i), true, avoid + {f}) && !Clear(m, Loc(f, i), true, {});
    } else {
      var g :| Edge(m, f, g) && g !in avoid + {f} && Reaches(m, g, avoid + {f});
      var i: nat :| Follows(m, Loc(f, i), g);
      var tail :| PathToLeaf(m, g, avoid + {f}, tail);
      assert PathToLeaf(m, g, {}, tail);
      assert !Clear(m, Loc(f, i), true, avoid + {f}) && !Clear(m, Loc(f, i), true, {});
    }
  }

  // ---------------------------------------------------------------- the search

  lemma {:induction false} Fits(s: set<nat>, n: nat)
    requires forall f :: f in s ==> f < n
    ensures |s| <= n
  {
    if n > 0 {
      Fits(s - {n - 1}, n - 1);
    } else {
      assert s == {};
    }
  }

  // What is remembered is so: a site is real, and every function on its way is
  // remembered too; nothing means nothing at all.
  ghost predicate Sound(m: Module, memo: map<nat, Option<Site>>) {
    forall f :: f in memo ==>
      && f < |m.funcs|
      && if memo[f].Some? then RealIn(m, memo[f].value, f) && Through(memo[f].value, memo.Keys) else !Reaches(m, f, {})
  }

  // An answer at operation l, with the functions of `walked` being walked
  // further up and not remembered: a site is real; none means clear but for
  // those; and clear outright if no cycle was met.
  ghost predicate Answer(m: Module, l: Loc, inCallee: bool, walked: set<nat>, met: bool, r: Option<Site>) {
    if r.Some? then Real(m, r.value, l, inCallee)
    else Clear(m, l, inCallee, walked) && (!met ==> Clear(m, l, inCallee, {}))
  }

  // Nothing was found at target g of a call.
  ghost predicate TargetClear(m: Module, nothrow: bool, g: nat, walked: set<nat>, met: bool) {
    g < |m.funcs| ==>
      if m.funcs[g].followed then AnswerIn(m, g, walked, met, None) else forall k :: !ExternalLeaf(m, nothrow, g, k)
  }

  ghost predicate TargetsClear(m: Module, nothrow: bool, gs: seq<nat>, walked: set<nat>, met: bool) {
    forall g :: g in gs ==> TargetClear(m, nothrow, g, walked, met)
  }

  lemma TargetsClearNext(m: Module, nothrow: bool, gs: seq<nat>, t: nat, walked: set<nat>, met: bool, met': bool)
    requires TargetsClear(m, nothrow, gs, walked, met) && (met ==> met')
    ensures TargetsClear(m, nothrow, gs, walked, met')
    ensures TargetClear(m, nothrow, t, walked, met') ==> TargetsClear(m, nothrow, gs + [t], walked, met')
  {
    forall g | g in gs ensures TargetClear(m, nothrow, g, walked, met') {
      assert TargetClear(m, nothrow, g, walked, met);
    }
  }

  // The site is at target t of its call, or below it.
  ghost predicate IsTarget(m: Module, s: Site, t: nat) {
    && t < |m.funcs|
    && if m.funcs[t].followed then s.via != [] && s.via[0] == t else s.via == [] && s.callee == Some(t)
  }

  // The site is at, or below, one of the targets of the call, and nothing was
  // found at those before it.
  ghost predicate FirstTarget(m: Module, op: Op, s: Site, walked: set<nat>, met: bool)
    requires op.Call?
  {
    exists k :: 0 <= k < |op.targets| && IsTarget(m, s, op.targets[k])
                && TargetsClear(m, op.nothrow, op.targets[..k], walked, met)
  }

  lemma CallClear(m: Module, l: Loc, inCallee: bool, walked: set<nat>, met: bool)
    requires WellFormed(m) && In(m, l) && OpAt(m, l).Call? && !m.extra(l, inCallee)
    requires !OpAt(m, l).direct ==> OpAt(m, l).targets != []
    requires TargetsClear(m, OpAt(m, l).nothrow, OpAt(m, l).targets, walked, met)
    ensures Answer(m, l, inCallee, walked, met, None)
  {
    forall g | Follows(m, l, g) ensures (g in walked || !Reaches(m, g, walked)) && (!met ==> !Reaches(m, g, {})) {
      assert TargetClear(m, OpAt(m, l).nothrow, g, walked, met);
    }
    forall kind, callee, threading ensures !Leaf(m, l, inCallee, kind, callee, threading) {
      if callee.Some? && callee.value in OpAt(m, l).targets {
        assert TargetClear(m, OpAt(m, l).nothrow, callee.value, walked, met);
      }
    }
  }

  // Nothing was found at the operations before l.
  ghost predicate ClearBefore(m: Module, l: Loc, walked: set<nat>) {
    forall j: nat :: j < l.i ==> Clear(m, Loc(l.f, j), true, walked)
  }

  // The same of a whole function.
  ghost predicate AnswerIn(m: Module, f: nat, walked: set<nat>, met: bool, r: Option<Site>) {
    if r.Some? then RealIn(m, r.value, f)
    else (f in walked || !Reaches(m, f, walked)) && (!met ==> !Reaches(m, f, {}))
  }

  lemma BodyAnswer(m: Module, f: nat, walked: set<nat>, met: bool)
    requires f < |m.funcs| && f !in walked
    requires forall j: nat :: j < |m.funcs[f].body| ==> Answer(m, Loc(f, j), true, walked + {f}, met, None)
    ensures AnswerIn(m, f, walked, met, None)
  {
    if Reaches(m, f, walked) {
      ReachesBy(m, f, walked);
    }
    if !met && Reaches(m, f, {}) {
      ReachesBy(m, f, {});
    }
  }

  lemma Remembers(m: Module, memo: map<nat, Option<Site>>, f: nat, found: Option<Site>, inProgress: set<nat>)
    requires Sound(m, memo) && f < |m.funcs| && f !in inProgress
    requires if found.Some? then RealIn(m, found.value, f) && Through(found.value, memo.Keys) else !Reaches(m, f, {})
    ensures Sound(m, memo[f := found]) && memo.Keys <= memo[f := found].Keys
    ensures found.Some? ==> Through(found.value, memo[f := found].Keys)
    ensures inProgress - memo[f := found].Keys == inProgress - memo.Keys
  {
    var next := memo[f := found];
    forall g | g in memo && memo[g].Some? ensures Through(memo[g].value, next.Keys) {
    }
  }

  // f joins the functions being walked, and leaves.
  lemma Entering(inProgress: set<nat>, remembered: set<nat>, f: nat)
    requires f !in inProgress
    ensures inProgress + {f} - {f} == inProgress && |inProgress + {f}| == |inProgress| + 1
    ensures f !in remembered ==> inProgress + {f} - remembered == inProgress - remembered + {f}
    ensures f !in remembered ==> inProgress + {f} - remembered - {f} == inProgress - remembered
  {}

  class BlockingQuery {
    const m: Module
    const key: Site -> nat
    var memo: map<nat, Option<Site>>
    var inProgress: set<nat>
    var metCycle: bool

    ghost predicate Valid()
      reads this
    {
      WellFormed(m) && Sound(m, memo) && forall f :: f in inProgress ==> f < |m.funcs|
    }

    // The functions a search cannot go through.
    ghost function Walked(): set<nat>
      reads this
    {
      inProgress - memo.Keys
    }

    constructor (m: Module, key: Site -> nat)
      requires WellFormed(m)
      ensures Valid() && this.m == m && this.key == key && memo == map[] && inProgress == {}
    {
      this.m, this.key, memo, inProgress, metCycle := m, key, map[], {}, false;
    }

    method SiteAt(l: Loc, inCallee: bool) returns (r: Option<Site>)
      requires Valid() && In(m, l)
      modifies this
      ensures Valid() && inProgress == old(inProgress) && (old(metCycle) ==> metCycle)
      ensures old(memo).Keys <= memo.Keys && Walked() == old(Walked())
      ensures Answer(m, l, inCallee, Walked(), metCycle, r)
      ensures r.Some? ==> Through(r.value, memo.Keys)
      decreases |m.funcs| - |inProgress|, 4
    {
      if m.extra(l, inCallee) {
        r := Some(Site(l, Refused, None, false, [], []));
        assert Leaf(m, l, inCallee, Refused, None, false);
      } else if OpAt(m, l).Does? {
        if OpAt(m, l).kind in m.accepted {
          r := None;
        } else {
          r := Some(Site(l, OpAt(m, l).kind, None, false, [], []));
          assert Leaf(m, l, inCallee, OpAt(m, l).kind, None, false);
        }
      } else if OpAt(m, l).Call? {
        r := CallSite(l, inCallee);
      } else {
        r := None;
      }
    }

    method CallSite(l: Loc, ghost inCallee: bool) returns (r: Option<Site>)
      requires Valid() && In(m, l) && OpAt(m, l).Call? && !m.extra(l, inCallee)
      modifies this
      ensures Valid() && inProgress == old(inProgress) && (old(metCycle) ==> metCycle)
      ensures old(memo).Keys <= memo.Keys && Walked() == old(Walked())
      ensures Answer(m, l, inCallee, Walked(), metCycle, r)
      ensures r.Some? ==> Through(r.value, memo.Keys)
      ensures r.Some? && OpAt(m, l).targets != [] ==> FirstTarget(m, OpAt(m, l), r.value, Walked(), metCycle)
      decreases |m.funcs| - |inProgress|, 3
    {
      var op := OpAt(m, l);
      if Skipped(op) { return None; }
      if !op.direct && op.targets == [] {
        if UnknownTarget in m.accepted { return None; }
        assert Leaf(m, l, inCallee, UnknownTarget, None, false);
        return Some(Site(l, UnknownTarget, None, false, [], []));
      }
      r := None;
      var k := 0;
      while k < |op.targets|
        invariant 0 <= k <= |op.targets| && Valid() && inProgress == old(inProgress) && (old(metCycle) ==> metCycle)
        invariant r.None? && old(memo).Keys <= memo.Keys && Walked() == old(Walked())
        invariant TargetsClear(m, op.nothrow, op.targets[..k], Walked(), metCycle)
      {
        var t := op.targets[k];
        assert t in op.targets;
        ghost var met := metCycle;
        r := TargetSite(l, inCallee, t);
        TargetsClearNext(m, op.nothrow, op.targets[..k], t, Walked(), met, metCycle);
        if r.Some? {
          assert FirstTarget(m, op, r.value, Walked(), metCycle);
          return;
        }
        assert op.targets[..k + 1] == op.targets[..k] + [t];
        k := k + 1;
      }
      assert op.targets[..k] == op.targets;
      CallClear(m, l, inCallee, Walked(), metCycle);
    }

    // One target of a call.
    method TargetSite(l: Loc, ghost inCallee: bool, t: nat) returns (r: Option<Site>)
      requires Valid() && In(m, l) && OpAt(m, l).Call? && !m.extra(l, inCallee) && !Skipped(OpAt(m, l))
      requires t in OpAt(m, l).targets
      modifies this
      ensures Valid() && inProgress == old(inProgress) && (old(metCycle) ==> metCycle)
      ensures old(memo).Keys <= memo.Keys && Walked() == old(Walked())
      ensures r.Some? ==> Real(m, r.value, l, inCallee) && Through(r.value, memo.Keys) && IsTarget(m, r.value, t)
      ensures r.None? ==> TargetClear(m, OpAt(m, l).nothrow, t, Walked(), metCycle)
      decreases |m.funcs| - |inProgress|, 2
    {
      var nothrow := OpAt(m, l).nothrow;
      if !m.funcs[t].followed {
        var kind := ExternalKind(m, nothrow, t);
        ExternalKindExactly(m, nothrow, t);
        if kind.None? { return None; }
        var threading := m.funcs[t].ext.Some? && m.funcs[t].ext.value.threading;
        assert Leaf(m, l, inCallee, kind.value, Some(t), threading);
        return Some(Site(l, kind.value, Some(t), threading, [], []));
      }
      r := FirstIn(t);
      if r.Some? {
        var s := r.value;
        r := Some(s.(chain := [l] + s.chain, via := [t] + s.via));
        assert Rest(r.value) == s;
      }
    }

    method FirstIn(f: nat) returns (found: Option<Site>)
      requires Valid() && f < |m.funcs|
      modifies this
      ensures Valid() && inProgress == old(inProgress) && (old(metCycle) ==> metCycle)
      ensures old(memo).Keys <= memo.Keys && Walked() == old(Walked())
      ensures AnswerIn(m, f, Walked(), metCycle, found)
      ensures found.Some? ==> f in memo && Through(found.value, memo.Keys)
      decreases |m.funcs| - |inProgress|, 1
    {
      if f in memo {
        AvoidingLess(m, f, Walked());
        return memo[f];
      }
      if f in inProgress {
        metCycle := true;
        return None;
      }
      var outer := metCycle;
      metCycle := false;
      found := Walk(f);
      if found.Some? || !metCycle { Remember(f, found); }
      metCycle := outer || metCycle;
    }

    method Remember(f: nat, found: Option<Site>)
      requires Valid() && f < |m.funcs| && f !in inProgress
      requires if found.Some? then RealIn(m, found.value, f) && Through(found.value, memo.Keys) else !Reaches(m, f, {})
      modifies this`memo
      ensures Valid() && memo == old(memo)[f := found] && old(memo).Keys <= memo.Keys && Walked() == old(Walked())
      ensures found.Some? ==> Through(found.value, memo.Keys)
    {
      Remembers(m, memo, f, found, inProgress);
      memo := memo[f := found];
    }

    // The walk of f's operations, which stops at the first site.
    method Walk(f: nat) returns (found: Option<Site>)
      requires Valid() && f < |m.funcs| && f !in memo && f !in inProgress
      modifies this
      ensures Valid() && inProgress == old(inProgress)
      ensures old(memo).Keys <= memo.Keys && Walked() == old(Walked())
      ensures AnswerIn(m, f, Walked(), metCycle, found)
      ensures found.Some? ==> Through(found.value, memo.Keys)
      decreases |m.funcs| - |inProgress|, 0
    {
      ghost var outside, walked := inProgress, Walked();
      Entering(inProgress, memo.Keys, f);
      inProgress := inProgress + {f};
      Fits(inProgress, |m.funcs|);
      found := FirstOf(f);
      inProgress := inProgress - {f};
      Entering(outside, memo.Keys, f);
      if found.None? { BodyAnswer(m, f, walked, metCycle); }
    }

    method FirstOf(f: nat) returns (found: Option<Site>)
      requires Valid() && f < |m.funcs| && f in Walked()
      modifies this
      ensures Valid() && inProgress == old(inProgress)
      ensures old(memo).Keys <= memo.Keys && Walked() == old(Walked())
      ensures found.Some? ==> RealIn(m, found.value, f) && Through(found.value, memo.Keys)
      ensures found.Some? ==> ClearBefore(m, First(found.value), Walked())
      ensures found.None? ==> forall j: nat :: j < |m.funcs[f].body| ==>
              Answer(m, Loc(f, j), true, Walked(), metCycle, None)
      decreases |m.funcs| - |inProgress|, 5
    {
      found := None;
      var i := 0;
      while i < |m.funcs[f].body| && found.None?
        invariant 0 <= i <= |m.funcs[f].body| && Valid() && inProgress == old(inProgress)
        invariant old(memo).Keys <= memo.Keys && Walked() == old(Walked())
        invariant found.Some? ==> RealIn(m, found.value, f) && Through(found.value, memo.Keys)
        invariant found.Some? ==> ClearBefore(m, First(found.value), Walked())
        invariant found.None? ==> forall j: nat :: j < i ==> Answer(m, Loc(f, j), true, Walked(), metCycle, None)
      {
        found := SiteAt(Loc(f, i), true);
        i := i + 1;
      }
    }

    // The public queries, made with nothing being walked. At one operation: a
    // site exactly when it, or anything it calls, may block.
    method At(l: Loc) returns (r: Option<Site>)
      requires Valid() && inProgress == {} && In(m, l)
      modifies this
      ensures Valid() && inProgress == {}
      ensures r.Some? <==> MayBlockAt(m, l)
      ensures r.Some? ==> Real(m, r.value, l, false) && Through(r.value, memo.Keys)
    {
      assert Walked() == {};
      r := SiteAt(l, false);
      if r.Some? { RealBlocks(m, r.value, l); }
    }

    // Of a whole function: the sites are real, at operations of its own body,
    // no two with one key; every operation that blocks by itself, or calls what
    // reaches a leaf, is reported, up to the key, and no other. Unless the query
    // remembers f already, a leaf below counts if it is reached without f.
    method SitesIn(f: nat) returns (sites: seq<Site>)
      requires Valid() && inProgress == {} && f < |m.funcs|
      modifies this
      ensures Valid() && inProgress == {} && !metCycle && old(memo).Keys <= memo.Keys && (f in memo ==> f in old(memo))
      ensures forall k :: 0 <= k < |sites| ==> First(sites[k]).f == f && Real(m, sites[k], First(sites[k]), false)
      ensures forall k, l :: 0 <= k < l < |sites| ==> key(sites[k]) != key(sites[l])
      ensures forall k, l :: 0 <= k < l < |sites| ==> First(sites[k]).i < First(sites[l]).i
      ensures forall i: nat :: In(m, Loc(f, i)) && !Clear(m, Loc(f, i), false, Cut(f, old(memo))) ==>
                Reported(m, key, sites, Loc(f, i))
      ensures forall k :: 0 <= k < |sites| ==> !Clear(m, First(sites[k]), false, Cut(f, old(memo)))
      ensures sites != [] <==> Finds(m, f, old(memo))
    {
      sites := [];
      var seen: set<nat> := {};
      inProgress := {f};
      ghost var cut := Cut(f, memo);
      assert Walked() == cut;
      var i := 0;
      while i < |m.funcs[f].body|
        invariant 0 <= i <= |m.funcs[f].body| && Valid() && inProgress == {f}
        invariant old(memo).Keys <= memo.Keys && Walked() == cut
        invariant Listed(m, key, f, i, sites, seen, cut)
      {
        var found := SiteAt(Loc(f, i), false);
        if found.None? {
          ListedNone(m, key, f, i, sites, seen, cut);
        } else {
          RealNotClear(m, found.value, Loc(f, i), cut);
          if key(found.value) in seen {
            ListedAgain(m, key, f, i, sites, seen, cut, found.value);
          } else {
            ListedNext(m, key, f, i, sites, seen, cut, found.value);
            seen := seen + {key(found.value)};
            sites := sites + [found.value];
          }
        }
        i := i + 1;
      }
      inProgress := {};
      metCycle := false;
      ListedAll(m, key, f, sites, seen, cut);
    }
  }

  // ------------------------------------------------------------- main results

  ghost predicate MayBlockAt(m: Module, l: Loc) {
    HasLeaf(m, l, false) || exists g :: Follows(m, l, g) && Reaches(m, g, {})
  }

  ghost predicate MayBlock(m: Module, f: nat) {
    exists i: nat :: In(m, Loc(f, i)) && MayBlockAt(m, Loc(f, i))
  }

  // What a query of f does not look behind: f itself, unless remembered.
  ghost function Cut(f: nat, memo: map<nat, Option<Site>>): set<nat> {
    if f in memo then {} else {f}
  }

  ghost predicate BlocksWithoutItself(m: Module, f: nat) {
    exists i: nat :: In(m, Loc(f, i)) && !Clear(m, Loc(f, i), false, {f})
  }

  // What SitesIn says of f: it lists a site.
  ghost predicate Finds(m: Module, f: nat, memo: map<nat, Option<Site>>) {
    if f in memo then MayBlock(m, f) else BlocksWithoutItself(m, f)
  }

  // The pass refuses an operation of f in a callee alone.
  ghost predicate RefusedAsCallee(m: Module, f: nat) {
    exists i: nat :: In(m, Loc(f, i)) && m.extra(Loc(f, i), true) && !m.extra(Loc(f, i), false)
  }

  ghost predicate HasKey(key: Site -> nat, sites: seq<Site>, x: nat) {
    exists k: nat :: k < |sites| && key(sites[k]) == x
  }

  // A site of operation l has the key of one in the list.
  ghost predicate Reported(m: Module, key: Site -> nat, sites: seq<Site>, l: Loc) {
    exists s: Site :: Real(m, s, l, false) && HasKey(key, sites, key(s))
  }

  // The sites are in the order of their operations, one for each at most.
  ghost predicate InOrder(sites: seq<Site>, i: nat) {
    && (forall k, l :: 0 <= k < l < |sites| ==> First(sites[k]).i < First(sites[l]).i)
    && forall k :: 0 <= k < |sites| ==> First(sites[k]).i < i
  }

  ghost predicate Distinct(m: Module, key: Site -> nat, f: nat, sites: seq<Site>) {
    && (forall k :: 0 <= k < |sites| ==> First(sites[k]).f == f && Real(m, sites[k], First(sites[k]), false))
    && (forall k, l :: 0 <= k < l < |sites| ==> key(sites[k]) != key(sites[l]))
  }

  // The sites listed after i operations of f, and their keys.
  ghost predicate Listed(m: Module, key: Site -> nat, f: nat, i: nat, sites: seq<Site>, seen: set<nat>, cut: set<nat>) {
    && Distinct(m, key, f, sites)
    && KeysAre(key, sites, seen)
    && AllReported(m, key, f, i, sites, cut) && Blocked(m, sites, cut) && InOrder(sites, i)
  }

  ghost predicate KeysAre(key: Site -> nat, sites: seq<Site>, seen: set<nat>) {
    forall x :: x in seen <==> HasKey(key, sites, x)
  }

  lemma KeysAreNext(key: Site -> nat, sites: seq<Site>, seen: set<nat>, s: Site)
    requires KeysAre(key, sites, seen)
    ensures KeysAre(key, sites + [s], seen + {key(s)})
  {
    KeysNext(key, sites, s);
  }

  ghost predicate AllReported(m: Module, key: Site -> nat, f: nat, i: nat, sites: seq<Site>, cut: set<nat>) {
    forall j: nat :: j < i ==> Clear(m, Loc(f, j), false, cut) || Reported(m, key, sites, Loc(f, j))
  }

  lemma AllReportedNext(m: Module, key: Site -> nat, f: nat, i: nat, sites: seq<Site>, cut: set<nat>, s: Site)
    requires AllReported(m, key, f, i, sites, cut) && Real(m, s, Loc(f, i), false)
    ensures AllReported(m, key, f, i + 1, sites + [s], cut)
  {
    StillReported(m, key, sites, s);
    KeysNext(key, sites, s);
    assert Reported(m, key, sites + [s], Loc(f, i));
  }

  lemma InOrderNext(sites: seq<Site>, i: nat, s: Site)
    requires InOrder(sites, i) && First(s).i == i
    ensures InOrder(sites + [s], i + 1)
  {}

  lemma KeysNext(key: Site -> nat, sites: seq<Site>, s: Site)
    ensures forall x :: HasKey(key, sites + [s], x) <==> HasKey(key, sites, x) || x == key(s)
  {
    assert (sites + [s])[|sites|] == s;
    forall x | HasKey(key, sites, x) ensures HasKey(key, sites + [s], x) {
      var k: nat :| k < |sites| && key(sites[k]) == x;
      assert (sites + [s])[k] == sites[k];
    }
  }

  ghost predicate Blocked(m: Module, sites: seq<Site>, cut: set<nat>) {
    forall k :: 0 <= k < |sites| ==> In(m, First(sites[k])) && !Clear(m, First(sites[k]), false, cut)
  }

  lemma BlockedNext(m: Module, sites: seq<Site>, cut: set<nat>, s: Site)
    requires Blocked(m, sites, cut) && In(m, First(s)) && !Clear(m, First(s), false, cut)
    ensures Blocked(m, sites + [s], cut)
  {}

  lemma DistinctNext(m: Module, key: Site -> nat, f: nat, sites: seq<Site>, s: Site)
    requires Distinct(m, key, f, sites) && First(s).f == f && Real(m, s, First(s), false) && !HasKey(key, sites, key(s))
    ensures Distinct(m, key, f, sites + [s])
  {
    assert forall k: nat :: k < |sites| ==> key(sites[k]) != key(s);
  }

  lemma StillReported(m: Module, key: Site -> nat, sites: seq<Site>, s: Site)
    ensures forall l :: Reported(m, key, sites, l) ==> Reported(m, key, sites + [s], l)
  {
    KeysNext(key, sites, s);
  }

  lemma ListedNone(m: Module, key: Site -> nat, f: nat, i: nat, sites: seq<Site>, seen: set<nat>, cut: set<nat>)
    requires Listed(m, key, f, i, sites, seen, cut) && Clear(m, Loc(f, i), false, cut)
    ensures Listed(m, key, f, i + 1, sites, seen, cut)
  {}

  lemma ListedAgain(m: Module, key: Site -> nat, f: nat, i: nat, sites: seq<Site>, seen: set<nat>, cut: set<nat>,
      s: Site)
    requires Listed(m, key, f, i, sites, seen, cut) && Real(m, s, Loc(f, i), false) && key(s) in seen
    ensures Listed(m, key, f, i + 1, sites, seen, cut)
  {
    assert Reported(m, key, sites, Loc(f, i));
  }

  lemma ListedNext(m: Module, key: Site -> nat, f: nat, i: nat, sites: seq<Site>, seen: set<nat>, cut: set<nat>,
      s: Site)
    requires Listed(m, key, f, i, sites, seen, cut) && Real(m, s, Loc(f, i), false) && In(m, Loc(f, i))
    requires key(s) !in seen
    requires !Clear(m, Loc(f, i), false, cut)
    ensures Listed(m, key, f, i + 1, sites + [s], seen + {key(s)}, cut)
  {
    DistinctNext(m, key, f, sites, s);
    KeysAreNext(key, sites, seen, s);
    AllReportedNext(m, key, f, i, sites, cut, s);
    BlockedNext(m, sites, cut, s);
    InOrderNext(sites, i, s);
  }

  lemma ListedAll(m: Module, key: Site -> nat, f: nat, sites: seq<Site>, seen: set<nat>, cut: set<nat>)
    requires f < |m.funcs| && Listed(m, key, f, |m.funcs[f].body|, sites, seen, cut)
    ensures sites != [] <==> exists i: nat :: In(m, Loc(f, i)) && !Clear(m, Loc(f, i), false, cut)
    ensures cut == {} ==> (sites != [] <==> MayBlock(m, f))
  {
    if sites != [] {
      var l := First(sites[0]);
      assert l == Loc(f, l.i);
    }
    if i: nat :| In(m, Loc(f, i)) && !Clear(m, Loc(f, i), false, cut) {
      assert Reported(m, key, sites, Loc(f, i));
    }
    forall i: nat | In(m, Loc(f, i)) ensures MayBlockAt(m, Loc(f, i)) <==> !Clear(m, Loc(f, i), false, {}) {
    }
  }

  // A site whose way avoids `cut` shows its operation not clear.
  lemma RealNotClear(m: Module, s: Site, l: Loc, cut: set<nat>)
    requires Real(m, s, l, false) && forall k :: 0 <= k < |s.via| ==> s.via[k] !in cut
    ensures !Clear(m, l, false, cut)
  {
    if s.chain == [] {
      assert HasLeaf(m, l, false);
    } else {
      RealReaches(m, Rest(s), s.via[0], cut);
    }
  }

  lemma RealBlocks(m: Module, s: Site, l: Loc)
    requires Real(m, s, l, false)
    ensures MayBlockAt(m, l)
  {
    if s.chain != [] { RealReaches(m, Rest(s), s.via[0], {}); }
  }

  // f calls itself again, directly or not.
  ghost predicate Recursive(m: Module, f: nat) {
    exists g, path :: Edge(m, f, g) && IsPath(m, path) && path[0] == g && path[|path| - 1] == f
  }

  lemma {:induction false} Prefix(m: Module, path: seq<nat>, j: nat)
    requires IsPath(m, path) && j < |path|
    ensures IsPath(m, path[..j + 1])
    decreases j
  {
    if j > 0 {
      Prefix(m, path[1..], j - 1);
      assert path[1..][..j] == path[..j + 1][1..];
    }
  }

  // A call of g, which reaches a leaf.
  lemma BlocksThrough(m: Module, f: nat, i: nat, g: nat, path: seq<nat>)
    requires Follows(m, Loc(f, i), g) && PathToLeaf(m, g, {}, path)
    ensures BlocksWithoutItself(m, f) || (Recursive(m, f) && LeafIn(m, f))
  {
    if f !in path {
      assert PathToLeaf(m, g, {f}, path);
      assert !Clear(m, Loc(f, i), false, {f});
    } else {
      var j :| 0 <= j < |path| && path[j] == f;
      Prefix(m, path, j);
      Suffix(m, g, {}, path, j);
      CutAfterLast(m, f, {}, path[j..]);
      if LeafIn(m, f) {
        assert Edge(m, f, g) && path[..j + 1][0] == g && path[..j + 1][j] == f;
      } else {
        var h :| Edge(m, f, h) && h !in {} + {f} && Reaches(m, h, {} + {f});
        assert {} + {f} == {f};
        var k: nat :| Follows(m, Loc(f, k), h);
        assert !Clear(m, Loc(f, k), false, {f});
      }
    }
  }

  lemma RecursiveBlocks(m: Module, f: nat)
    requires Recursive(m, f) && LeafIn(m, f)
    ensures MayBlock(m, f)
  {
    var g, path :| Edge(m, f, g) && IsPath(m, path) && path[0] == g && path[|path| - 1] == f;
    assert PathToLeaf(m, g, {}, path);
    var i: nat :| Follows(m, Loc(f, i), g);
    assert MayBlockAt(m, Loc(f, i));
  }

  // What a query that does not remember f finds is what may block, but for a
  // function that calls itself and blocks only as its own callee.
  lemma BlocksExactly(m: Module, f: nat)
    ensures MayBlock(m, f) <==> BlocksWithoutItself(m, f) || (Recursive(m, f) && LeafIn(m, f))
  {
    if MayBlock(m, f) {
      var i: nat :| In(m, Loc(f, i)) && MayBlockAt(m, Loc(f, i));
      if HasLeaf(m, Loc(f, i), false) {
        assert !Clear(m, Loc(f, i), false, {f});
      } else {
        var g :| Follows(m, Loc(f, i), g) && Reaches(m, g, {});
        var path :| PathToLeaf(m, g, {}, path);
        BlocksThrough(m, f, i, g, path);
      }
    }
    if Recursive(m, f) && LeafIn(m, f) { RecursiveBlocks(m, f); }
    if BlocksWithoutItself(m, f) {
      var i: nat :| In(m, Loc(f, i)) && !Clear(m, Loc(f, i), false, {f});
      if !HasLeaf(m, Loc(f, i), false) {
        var g :| Follows(m, Loc(f, i), g) && g !in {f} && Reaches(m, g, {f});
        AvoidingLess(m, g, {f});
      }
      assert MayBlockAt(m, Loc(f, i));
    }
  }

  lemma LeafInBoth(m: Module, l: Loc)
    requires HasLeaf(m, l, true)
    ensures HasLeaf(m, l, false) || (m.extra(l, true) && !m.extra(l, false))
  {
    var kind, callee, threading :| Leaf(m, l, true, kind, callee, threading);
    if m.extra(l, false) {
      assert Leaf(m, l, false, Refused, None, false);
    } else if !m.extra(l, true) {
      assert Leaf(m, l, false, kind, callee, threading);
    }
  }

  // When a query, fresh or not, answers rightly whether f may block, by having
  // found a site: always, but for a function it does not remember, that calls
  // itself, and of which some operation is refused in a callee alone and
  // nothing else blocks.
  lemma RightExactly(m: Module, f: nat, memo: map<nat, Option<Site>>)
    ensures (Finds(m, f, memo) <==> MayBlock(m, f)) <==>
              !(f !in memo && Recursive(m, f) && RefusedAsCallee(m, f) && !BlocksWithoutItself(m, f))
  {
    BlocksExactly(m, f);
    if LeafIn(m, f) && !BlocksWithoutItself(m, f) {
      var i: nat :| HasLeaf(m, Loc(f, i), true);
      LeafInBoth(m, Loc(f, i));
      assert Clear(m, Loc(f, i), false, {f});
    }
    if i: nat :| In(m, Loc(f, i)) && m.extra(Loc(f, i), true) {
      assert Leaf(m, Loc(f, i), true, Refused, None, false);
      assert HasLeaf(m, Loc(f, i), true);
    }
  }

  // A pass whose own check does not ask about callees, or has none, loses
  // nothing: f's own operations block the same in both.
  lemma SameInCallee(m: Module, f: nat)
    requires forall i: nat :: m.extra(Loc(f, i), true) ==> m.extra(Loc(f, i), false)
    ensures MayBlock(m, f) <==> BlocksWithoutItself(m, f)
  {
    BlocksExactly(m, f);
    if LeafIn(m, f) {
      var i: nat :| HasLeaf(m, Loc(f, i), true);
      LeafInBoth(m, Loc(f, i));
      assert !Clear(m, Loc(f, i), false, {f});
    }
  }

  // f calls itself, and its other operation is refused in a callee alone.
  function CallsItself(): Module {
    var body := [Plain, Call([0], true, true, false)];
    Module([Func(body, true, None)], {}, (l: Loc, inCallee: bool) => inCallee && l == Loc(0, 0))
  }

  lemma RefusedInCalleeAlone()
    ensures WellFormed(CallsItself()) && MayBlock(CallsItself(), 0) && !BlocksWithoutItself(CallsItself(), 0)
    ensures MayBlockAt(CallsItself(), Loc(0, 1))
  {
    var m := CallsItself();
    assert Follows(m, Loc(0, 1), 0);
    assert Leaf(m, Loc(0, 0), true, Refused, None, false);
    assert HasLeaf(m, Loc(0, 0), true);
    assert PathToLeaf(m, 0, {}, [0]);
    assert MayBlockAt(m, Loc(0, 1));
  }

  // So the exception is real, and an answer depends on what was asked before: a
  // fresh query finds no site in it, and the same query finds one after it has
  // been asked about the call.
  method MissesItself(key: Site -> nat) returns (before: seq<Site>, after: seq<Site>)
    ensures before == [] && after != [] && MayBlock(CallsItself(), 0)
  {
    RefusedInCalleeAlone();
    var q := new BlockingQuery(CallsItself(), key);
    before := q.SitesIn(0);
    var r := q.At(Loc(0, 1));
    assert 0 in q.memo;
    after := q.SitesIn(0);
  }
}
