/**
  * container/ring as the spinner uses it: a fixed cycle of strings and the
  * element a *ring.Ring value currently designates.
  */
module Rings {

  /**
    * Nil is the nil *ring.Ring that ring.New(0) returns. Cycle lists the
    * values in ring order, starting anywhere, and `pos` is the element the
    * cursor designates.
    */
  datatype Ring = Nil | Cycle(values: seq<string>, pos: nat)
  {
    predicate Valid()
    {
      Cycle? ==> pos < |values|
    }

    /** r.Len(): the number of elements, 0 for a nil ring. */
    function Len(): nat
    {
      if Nil? then 0 else |values|
    }

    /** r.Value of the designated element. */
    function Value(): string
      requires Cycle? && Valid()
    {
      values[pos]
    }

    /** `r.Value = v`: replaces the designated value and nothing else. */
    function SetValue(v: string): (r: Ring)
      requires Cycle? && Valid()
      ensures r.Cycle? && r.Valid() && r.pos == pos && r.Value() == v
      ensures |r.values| == |values|
      ensures forall k :: 0 <= k < |values| && k != pos ==> r.values[k] == values[k]
    {
      Cycle(values[pos := v], pos)
    }

    /** r.Next(): the element after this one, wrapping at the end. */
    function Next(): (r: Ring)
      requires Cycle? && Valid()
      ensures r.Cycle? && r.Valid() && r.values == values
    {
      Cycle(values, if pos + 1 == |values| then 0 else pos + 1)
    }

    /** r.Prev(): the element before this one, wrapping at the start. */
    function Prev(): (r: Ring)
      requires Cycle? && Valid()
      ensures r.Cycle? && r.Valid() && r.values == values
    {
      Cycle(values, if pos == 0 then |values| - 1 else pos - 1)
    }
  }

  /**
    * ring.New(n): nil when n <= 0, otherwise a ring of n elements with
    * the cursor on the first. Go leaves the fresh values nil; the model
    * puts empty strings there, and every caller overwrites them all.
    */
  function NewRing(n: int): (r: Ring)
    ensures r.Valid()
    ensures r.Nil? <==> n <= 0
    ensures r.Cycle? ==> |r.values| == n && r.pos == 0
  {
    if n <= 0 then Nil else Cycle(seq(n, _ => ""), 0)
  }

  /** One step of a rotating cursor: backward when `reversed`, forward otherwise. */
  function Step(r: Ring, reversed: bool): (r': Ring)
    requires r.Cycle? && r.Valid()
    ensures r'.Cycle? && r'.Valid() && r'.values == r.values
  {
    if reversed then r.Prev() else r.Next()
  }

  /** `n` steps in the same direction. */
  function Advance(r: Ring, reversed: bool, n: nat): (r': Ring)
    requires r.Cycle? && r.Valid()
    ensures r'.Cycle? && r'.Valid() && r'.values == r.values
  {
    if n == 0 then r else Step(Advance(r, reversed, n - 1), reversed)
  }

  /** Next and Prev undo each other. */
  lemma NextPrevInverse(r: Ring)
    requires r.Cycle? && r.Valid()
    ensures r.Next().Prev() == r
    ensures r.Prev().Next() == r
  {
  }

  /** `n` forward steps move the cursor `n` places on, modulo the length. */
  lemma {:induction false} AdvanceForward(r: Ring, n: nat)
    requires r.Cycle? && r.Valid()
    ensures Advance(r, false, n) == Cycle(r.values, (r.pos + n) % |r.values|)
  {
    var len := |r.values|;
    if n == 0 {
      assert r.pos % len == r.pos;
    } else {
      var a := r.pos + n - 1;
      AdvanceForward(r, n - 1);
      assert Advance(r, false, n) == Cycle(r.values, a % len).Next();
      ModSuccessor(a, len);
      assert a + 1 == r.pos + n;
    }
  }

  /** `n` backward steps move the cursor `n` places back, modulo the length. */
  lemma {:induction false} AdvanceBackward(r: Ring, n: nat)
    requires r.Cycle? && r.Valid()
    ensures Advance(r, true, n) == Cycle(r.values, (r.pos - n) % |r.values|)
  {
    var len := |r.values|;
    if n == 0 {
      assert r.pos % len == r.pos;
    } else {
      var a := r.pos - n + 1;
      AdvanceBackward(r, n - 1);
      assert Advance(r, true, n) == Cycle(r.values, a % len).Prev();
      ModPredecessor(a, len);
      assert a - 1 == r.pos - n;
    }
  }

  /** A full turn in either direction brings the cursor back where it started. */
  lemma FullTurn(r: Ring, reversed: bool)
    requires r.Cycle? && r.Valid()
    ensures Advance(r, reversed, r.Len()) == r
  {
    var len := |r.values|;
    assert r.Len() == len;
    if reversed {
      AdvanceBackward(r, len);
      DivModUnique(r.pos - len, len, -1, r.pos);
    } else {
      AdvanceForward(r, len);
      DivModUnique(r.pos + len, len, 1, r.pos);
    }
  }

  /** On a ring built from `values` with the cursor at the first one, `k` forward steps show values[k mod n]. */
  lemma ValueAfter(values: seq<string>, k: nat)
    requires values != []
    ensures Advance(Cycle(values, 0), false, k).Value() == values[k % |values|]
  {
    AdvanceForward(Cycle(values, 0), k);
  }

  lemma ModSuccessor(a: int, n: int)
    requires n > 0
    ensures (if a % n + 1 == n then 0 else a % n + 1) == (a + 1) % n
  {
    var q := a / n;
    if a % n + 1 < n {
      DivModUnique(a + 1, n, q, a % n + 1);
    } else {
      DivModUnique(a + 1, n, q + 1, 0);
    }
  }

  lemma ModPredecessor(a: int, n: int)
    requires n > 0
    ensures (if a % n == 0 then n - 1 else a % n - 1) == (a - 1) % n
  {
    var q := a / n;
    if a % n > 0 {
      DivModUnique(a - 1, n, q, a % n - 1);
    } else {
      DivModUnique(a - 1, n, q - 1, n - 1);
    }
  }

  /** Quotient and remainder are determined by the division equation. */
  lemma DivModUnique(a: int, n: int, q: int, m: int)
    requires n > 0 && 0 <= m < n && a == q * n + m
    ensures a % n == m && a / n == q
  {
    var q', m' := a / n, a % n;
    assert a == q' * n + m';
    assert (q - q') * n == m' - m by {
      assert (q - q') * n == q * n - q' * n;
    }
    if q > q' {
      MulAtLeast(q - q', n);
    } else if q < q' {
      assert (q' - q) * n == m - m' by {
        assert (q' - q) * n == q' * n - q * n;
      }
      MulAtLeast(q' - q, n);
    }
  }

  lemma {:induction false} MulAtLeast(d: nat, n: nat)
    requires d >= 1
    ensures d * n >= n
  {
    if d > 1 {
      MulAtLeast(d - 1, n);
      assert d * n == (d - 1) * n + n;
    }
  }
}
