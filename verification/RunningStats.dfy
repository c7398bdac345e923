/**
 The running statistics, updated in place.  A ghost field records the values seen so far; the
 moments kept are those of these values.
 */
module RunningStats {
  import opened Sequences
  import opened Moments

  class Stats {
    var n: nat
    var m1: real
    var m2: real
    var m3: real
    var m4: real
    var min: Extended
    var max: Extended
    ghost var values: seq<real>

    function State(): Moments
      reads this
    {
      Moments(n, m1, m2, m3, m4, min, max)
    }

    ghost predicate Valid()
      reads this
    {
      State() == MomentsOf(values)
    }

    constructor (vs: seq<real>)
      ensures Valid() && values == vs
    {
      n, m1, m2, m3, m4, min, max := 0, 0.0, 0.0, 0.0, 0.0, PlusInfinity, MinusInfinity;
      values := [];
      new;
      var i := 0;
      while i < |vs|
        invariant 0 <= i <= |vs| && Valid() && values == vs[..i]
      {
        Record(vs[i]);
        i := i + 1;
      }
    }

    method Record(value: real)
      requires Valid()
      modifies this
      ensures Valid() && values == old(values) + [value]
    {
      PushIsExact(values, value);
      Update(value);
      values := values + [value];
    }

    method Update(value: real)
      modifies this`n, this`m1, this`m2, this`m3, this`m4, this`min, this`max
      ensures State() == Push(old(State()), value)
    {
      Widen(value);
      var n1 := n as real;
      n := n + 1;
      var d, count := value - m1, n as real;
      var dn := d / count;
      Advance(d, dn, n1, count);
      IsPushed(old(State()), value, State(), d, dn, n1, count);
    }

    method Widen(value: real)
      modifies this`min, this`max
      ensures min == if Less(Finite(value), old(min)) then Finite(value) else old(min)
      ensures max == if Less(old(max), Finite(value)) then Finite(value) else old(max)
    {
      if Less(Finite(value), min) {
        min := Finite(value);
      }
      if Less(max, Finite(value)) {
        max := Finite(value);
      }
    }

    method Advance(d: real, dn: real, n1: real, count: real)
      modifies this`m1, this`m2, this`m3, this`m4
      ensures m1 == old(m1) + dn
      ensures m2 == old(m2) + d * dn * n1
      ensures m3 == old(m3) + Change3(d * dn * n1, dn, count, old(m2))
      ensures m4 == old(m4) + Change4(d * dn * n1, dn, dn * dn, count, old(m2), old(m3))
    {
      var dn2 := dn * dn;
      var term1 := d * dn * n1;
      m1 := m1 + dn;
      m4 := m4 + Change4(term1, dn, dn2, count, m2, m3);
      m3 := m3 + Change3(term1, dn, count, m2);
      m2 := m2 + term1;
    }

    /** A fresh object for the values of both operands, which stay as they are. */
    method Plus(b: Stats) returns (c: Stats)
      requires Valid() && b.Valid()
      ensures fresh(c) && c.Valid() && c.values == values + b.values
    {
      AddIsExact(values, b.values);
      c := new Stats([]);
      c.Fill(State(), b.State());
      c.values := values + b.values;
    }

    method Fill(a: Moments, b: Moments)
      requires State() == Empty
      modifies this`n, this`m1, this`m2, this`m3, this`m4, this`min, this`max
      ensures State() == Add(a, b)
    {
      n := a.n + b.n;
      if n == 0 {
        return;
      }
      min, max := Min(a.min, b.min), Max(a.max, b.max);
      var d, na, nb, count := b.m1 - a.m1, a.n as real, b.n as real, n as real;
      Combine(a, b, d, na, nb, count);
      assert State() == Merge(a, b, d, na, nb, count);
    }

    method Combine(a: Moments, b: Moments, d: real, na: real, nb: real, count: real)
      requires count > 0.0
      modifies this`m1, this`m2, this`m3, this`m4
      ensures m1 == Merge(a, b, d, na, nb, count).m1 && m2 == Merge(a, b, d, na, nb, count).m2
      ensures m3 == Merge(a, b, d, na, nb, count).m3 && m4 == Merge(a, b, d, na, nb, count).m4
    {
      m1 := (na * a.m1 + nb * b.m1) / count;
      m2 := a.m2 + b.m2 + Term2(d, na, nb, count);
      m3 := a.m3 + b.m3 + Term3(d, na, nb, count);
      m3 := m3 + Skew(3.0, d, na, nb, count, a.m2, b.m2);
      CombineFourth(a, b, d, na, nb, count);
    }

    method CombineFourth(a: Moments, b: Moments, d: real, na: real, nb: real, count: real)
      requires count > 0.0
      modifies this`m4
      ensures m4 == Merge(a, b, d, na, nb, count).m4
    {
      m4 := a.m4 + b.m4;
      m4 := m4 + Term4(d, na, nb, count);
      m4 := m4 + Spread4(d, na, nb, count, a.m2, b.m2);
      m4 := m4 + Skew(4.0, d, na, nb, count, a.m3, b.m3);
    }
  }

  class MultiVariateStats {
    const width: nat
    var n: nat
    const m1: array<real>
    const m2: array<real>
    const m3: array<real>
    const m4: array<real>
    const min: array<Extended>
    const max: array<Extended>
    ghost var rows: seq<seq<real>>

    ghost predicate Shaped() {
      && m1.Length == m2.Length == m3.Length == m4.Length == min.Length == max.Length == width
      && m1 != m2 && m1 != m3 && m1 != m4 && m2 != m3 && m2 != m4 && m3 != m4 && min != max
    }

    function State(i: nat): Moments
      requires Shaped() && i < width
      reads this`n, m1, m2, m3, m4, min, max
    {
      Moments(n, m1[i], m2[i], m3[i], m4[i], min[i], max[i])
    }

    ghost predicate Valid()
      reads this, m1, m2, m3, m4, min, max
    {
      && Shaped() && n == |rows| && Wide(rows, width)
      && forall i: nat :: i < width ==> State(i) == MomentsOf(Column(rows, i))
    }

    constructor (w: nat)
      ensures Valid() && width == w && rows == [] && forall j: nat :: j < width ==> State(j) == Empty
      ensures fresh(m1) && fresh(m2) && fresh(m3) && fresh(m4) && fresh(min) && fresh(max)
    {
      width, n, rows := w, 0, [];
      m1 := new real[w](_ => 0.0);
      m2 := new real[w](_ => 0.0);
      m3 := new real[w](_ => 0.0);
      m4 := new real[w](_ => 0.0);
      min := new Extended[w](_ => PlusInfinity);
      max := new Extended[w](_ => MinusInfinity);
    }

    constructor From(w: nat, vectors: seq<seq<real>>)
      requires Wide(vectors, w)
      ensures Valid() && width == w && rows == vectors
      ensures fresh(m1) && fresh(m2) && fresh(m3) && fresh(m4) && fresh(min) && fresh(max)
    {
      width, n, rows := w, 0, [];
      m1 := new real[w](_ => 0.0);
      m2 := new real[w](_ => 0.0);
      m3 := new real[w](_ => 0.0);
      m4 := new real[w](_ => 0.0);
      min := new Extended[w](_ => PlusInfinity);
      max := new Extended[w](_ => MinusInfinity);
      new;
      var k := 0;
      while k < |vectors|
        invariant 0 <= k <= |vectors| && Valid() && rows == vectors[..k]
      {
        Record(vectors[k]);
        k := k + 1;
      }
    }

    /** The step of the loop of `_push` for one column. */
    method RecordColumn(i: nat, value: real, n1: real)
      requires Shaped() && i < width && n >= 1 && n1 == (n - 1) as real
      modifies m1, m2, m3, m4, min, max
      ensures State(i) == Push(old(State(i)).(n := n - 1), value)
      ensures forall j: nat :: j < width && j != i ==> State(j) == old(State(j))
    {
      WidenColumn(i, value);
      var d, count := value - m1[i], n as real;
      var dn := d / count;
      AdvanceColumn(i, d, dn, n1, count);
      IsPushed(old(State(i)).(n := n - 1), value, State(i), d, dn, n1, count);
    }

    method WidenColumn(i: nat, value: real)
      requires Shaped() && i < width
      modifies min, max
      ensures min[i] == if Less(Finite(value), old(min[i])) then Finite(value) else old(min[i])
      ensures max[i] == if Less(old(max[i]), Finite(value)) then Finite(value) else old(max[i])
      ensures forall j :: 0 <= j < width && j != i ==> min[j] == old(min[j]) && max[j] == old(max[j])
    {
      if Less(Finite(value), min[i]) {
        min[i] := Finite(value);
      }
      if Less(max[i], Finite(value)) {
        max[i] := Finite(value);
      }
    }

    method AdvanceColumn(i: nat, d: real, dn: real, n1: real, count: real)
      requires Shaped() && i < width
      modifies m1, m2, m3, m4
      ensures m1[i] == old(m1[i]) + dn
      ensures m2[i] == old(m2[i]) + d * dn * n1
      ensures m3[i] == old(m3[i]) + Change3(d * dn * n1, dn, count, old(m2[i]))
      ensures m4[i] == old(m4[i]) + Change4(d * dn * n1, dn, dn * dn, count, old(m2[i]), old(m3[i]))
      ensures forall j :: 0 <= j < width && j != i ==> m1[j] == old(m1[j]) && m2[j] == old(m2[j])
      ensures forall j :: 0 <= j < width && j != i ==> m3[j] == old(m3[j]) && m4[j] == old(m4[j])
    {
      var dn2 := dn * dn;
      var term1 := d * dn * n1;
      m1[i] := m1[i] + dn;
      m4[i] := m4[i] + Change4(term1, dn, dn2, count, m2[i], m3[i]);
      m3[i] := m3[i] + Change3(term1, dn, count, m2[i]);
      m2[i] := m2[i] + term1;
    }

    /** Every column records its component of the vector. */
    method Record(vector: seq<real>)
      requires Valid() && width <= |vector|
      modifies this, m1, m2, m3, m4, min, max
      ensures Valid() && rows == old(rows) + [vector]
    {
      var n1 := n;
      n := n1 + 1;
      var i := 0;
      while i < width
        invariant 0 <= i <= width && Shaped() && n == n1 + 1 && rows == old(rows)
        invariant forall j: nat :: j < i ==> State(j) == Push(old(State(j)), vector[j])
        invariant forall j: nat :: i <= j < width ==> State(j) == old(State(j)).(n := n)
      {
        RecordColumn(i, vector[i], n1 as real);
        i := i + 1;
      }
      rows := rows + [vector];
      forall j: nat | j < width ensures State(j) == MomentsOf(Column(rows, j)) {
        PushIsExact(Column(old(rows), j), vector[j]);
        assert Column(rows, j) == Column(old(rows), j) + [vector[j]];
      }
    }

    /** The columns are kept in different arrays. */
    ghost predicate Apart(b: MultiVariateStats) {
      m1 != b.m1 && m1 != b.m2 && m1 != b.m3 && m1 != b.m4
      && m2 != b.m1 && m2 != b.m2 && m2 != b.m3 && m2 != b.m4
      && m3 != b.m1 && m3 != b.m2 && m3 != b.m3 && m3 != b.m4
      && m4 != b.m1 && m4 != b.m2 && m4 != b.m3 && m4 != b.m4 && min != b.min && max != b.max && min != b.max
      && max != b.min
    }

    /** A fresh object for the vectors of both operands. */
    method Plus(b: MultiVariateStats) returns (c: MultiVariateStats)
      requires Valid() && b.Valid() && width == b.width
      ensures fresh(c) && c.Valid() && c.width == width && c.rows == rows + b.rows
    {
      c := new MultiVariateStats(width);
      c.Combine(this, b);
      c.rows := rows + b.rows;
      ColumnsAdded(this, b, c);
    }

    method Combine(a: MultiVariateStats, b: MultiVariateStats)
      requires Shaped() && a.Shaped() && b.Shaped() && width == a.width == b.width && Apart(a) && Apart(b)
      requires this != a && this != b && n == 0 && forall j: nat :: j < width ==> State(j) == Empty
      modifies this`n, m1, m2, m3, m4, min, max
      ensures n == a.n + b.n && forall j: nat :: j < width ==> State(j) == Add(a.State(j), b.State(j))
    {
      n := a.n + b.n;
      if n > 0 {
        FillColumns(a, b);
      }
    }

    /** The columns are added one by one. */
    method FillColumns(a: MultiVariateStats, b: MultiVariateStats)
      requires Shaped() && a.Shaped() && b.Shaped() && width == a.width == b.width && Apart(a) && Apart(b)
      requires n > 0 && n == a.n + b.n
      modifies m1, m2, m3, m4, min, max
      ensures forall j: nat :: j < width ==> State(j) == Add(a.State(j), b.State(j))
    {
      var i := 0;
      while i < width
        invariant 0 <= i <= width
        invariant forall j: nat :: j < i ==> State(j) == Add(a.State(j), b.State(j))
      {
        FillColumn(i, a.State(i), b.State(i));
        i := i + 1;
      }
    }

    method FillColumn(i: nat, a: Moments, b: Moments)
      requires Shaped() && i < width && n > 0 && n == a.n + b.n
      modifies m1, m2, m3, m4, min, max
      ensures State(i) == Add(a, b)
      ensures forall j: nat :: j < width && j != i ==> State(j) == old(State(j))
    {
      min[i], max[i] := Min(a.min, b.min), Max(a.max, b.max);
      var d, na, nb, count := b.m1 - a.m1, a.n as real, b.n as real, n as real;
      CombineColumn(i, a, b, d, na, nb, count);
      assert State(i) == Merge(a, b, d, na, nb, count);
    }

    method CombineColumn(i: nat, a: Moments, b: Moments, d: real, na: real, nb: real, count: real)
      requires Shaped() && i < width && count > 0.0
      modifies m1, m2, m3, m4
      ensures m1[i] == Merge(a, b, d, na, nb, count).m1 && m2[i] == Merge(a, b, d, na, nb, count).m2
      ensures m3[i] == Merge(a, b, d, na, nb, count).m3 && m4[i] == Merge(a, b, d, na, nb, count).m4
      ensures forall j :: 0 <= j < width && j != i ==> m1[j] == old(m1[j]) && m2[j] == old(m2[j])
      ensures forall j :: 0 <= j < width && j != i ==> m3[j] == old(m3[j]) && m4[j] == old(m4[j])
    {
      m1[i] := (na * a.m1 + nb * b.m1) / count;
      m2[i] := a.m2 + b.m2 + Term2(d, na, nb, count);
      m3[i] := a.m3 + b.m3 + Term3(d, na, nb, count) + Skew(3.0, d, na, nb, count, a.m2, b.m2);
      m4[i] := a.m4 + b.m4 + Term4(d, na, nb, count)
               + Spread4(d, na, nb, count, a.m2, b.m2) + Skew(4.0, d, na, nb, count, a.m3, b.m3);
    }
  }

  lemma ColumnsAdded(a: MultiVariateStats, b: MultiVariateStats, c: MultiVariateStats)
    requires a.Valid() && b.Valid() && c.Shaped() && c.width == a.width == b.width && c.rows == a.rows + b.rows
      && c.n == a.n + b.n
    requires forall j: nat :: j < c.width ==> c.State(j) == Add(a.State(j), b.State(j))
    ensures c.Valid()
  {
    forall j: nat | j < c.width ensures c.State(j) == MomentsOf(Column(c.rows, j)) {
      AddIsExact(Column(a.rows, j), Column(b.rows, j));
      assert Column(c.rows, j) == Column(a.rows, j) + Column(b.rows, j);
    }
  }

  /** One object for each partition, reduced by addition; reducing nothing is an error. */
  method Summarize(width: nat, parts: seq<seq<seq<real>>>) returns (r: Option<MultiVariateStats>)
    requires AllWide(parts, width)
    ensures r.None? <==> parts == []
    ensures r.Some? ==> fresh(r.value) && r.value.Valid() && r.value.width == width && r.value.rows == Flatten(parts)
    ensures r.Some? ==> forall j: nat :: j < width ==> r.value.State(j) == MvStats(width, parts).value[j]
  {
    if parts == [] {
      return None;
    }
    var c := new MultiVariateStats.From(width, parts[0]);
    FlattenOne(parts[0]);
    assert parts[..1] == [parts[0]];
    var k := 1;
    while k < |parts|
      invariant 1 <= k <= |parts| && fresh(c) && c.Valid() && c.width == width && c.rows == Flatten(parts[..k])
    {
      var next := new MultiVariateStats.From(width, parts[k]);
      FlattenPrefix(parts, k);
      c := c.Plus(next);
      k := k + 1;
    }
    assert parts[..k] == parts;
    FlattenWide(parts, width);
    MvStatsAreExact(width, Flatten(parts), parts);
    return Some(c);
  }
}
