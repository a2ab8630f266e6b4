/** Positions of cells in a list of array segments, in the order of the list. */
module Positions {

  // A segment, by its place in the list, and a cell of it.
  datatype Pos = Pos(seg: nat, idx: nat)

  predicate Lt(a: Pos, b: Pos) {
    a.seg < b.seg || (a.seg == b.seg && a.idx < b.idx)
  }

  ghost predicate Sorted(h: seq<Pos>) {
    forall i, j :: 0 <= i < j < |h| ==> Lt(h[i], h[j])
  }

  // The first m cells of a segment.
  ghost function FirstSet(seg: nat, m: nat): set<Pos> {
    set r: nat | r < m :: Pos(seg, r)
  }

  ghost function Elements(h: seq<Pos>): set<Pos> {
    set x | x in h
  }

  // ------------------------------------------------ a set of cells, in order

  ghost predicate IsLeast(xs: set<Pos>, m: Pos) {
    m in xs && forall y :: y in xs && y != m ==> Lt(m, y)
  }

  lemma {:induction false} HasLeast(xs: set<Pos>)
    requires xs != {}
    ensures exists m :: IsLeast(xs, m)
  {
    var x :| x in xs;
    var rest := xs - {x};
    assert xs == rest + {x};
    if rest == {} {
      assert IsLeast(xs, x);
    } else {
      HasLeast(rest);
      var m :| IsLeast(rest, m);
      assert IsLeast(xs, if Lt(m, x) then m else x);
    }
  }

  lemma LinePrepends(xs: set<Pos>, m: Pos, rest: seq<Pos>)
    requires IsLeast(xs, m) && Sorted(rest) && Elements(rest) == xs - {m}
    ensures Sorted([m] + rest) && Elements([m] + rest) == xs
  {
    assert forall y :: y in rest <==> y in Elements(rest);
    assert forall y :: y in [m] + rest <==> y == m || y in rest;
    forall i, j | 0 <= i < j < |[m] + rest| ensures Lt(([m] + rest)[i], ([m] + rest)[j]) {
      assert rest[j - 1] in rest;
    }
  }

  ghost function Line(xs: set<Pos>): (h: seq<Pos>)
    ensures Sorted(h) && Elements(h) == xs
  {
    if xs == {} then []
    else
      HasLeast(xs);
      var m :| IsLeast(xs, m);
      var rest := Line(xs - {m});
      LinePrepends(xs, m, rest);
      [m] + rest
  }

  lemma NoElements(h: seq<Pos>)
    ensures Elements(h) == {} <==> h == []
  {
    if h != [] { assert h[0] in Elements(h); }
  }

  lemma {:induction false} SameLine(a: seq<Pos>, b: seq<Pos>)
    requires Sorted(a) && Sorted(b) && Elements(a) == Elements(b)
    ensures a == b
  {
    NoElements(a);
    NoElements(b);
    if a != [] {
      assert a[0] in Elements(b) && b[0] in Elements(a);
      assert a[0] == b[0];
      assert Elements(a[1..]) == Elements(a) - {a[0]};
      assert Elements(b[1..]) == Elements(b) - {b[0]};
      SameLine(a[1..], b[1..]);
    }
  }

  // Every cell of xs is before every one of ys.
  ghost predicate AllBefore(xs: set<Pos>, ys: set<Pos>) {
    forall x, y :: x in xs && y in ys ==> Lt(x, y)
  }

  lemma LineJoins(xs: set<Pos>, ys: set<Pos>)
    requires AllBefore(xs, ys)
    ensures Line(xs + ys) == Line(xs) + Line(ys)
  {
    var a, b := Line(xs), Line(ys);
    assert Elements(a + b) == xs + ys;
    assert forall x :: x in a ==> x in Elements(a);
    assert forall y :: y in b ==> y in Elements(b);
    SameLine(Line(xs + ys), a + b);
  }
}
