/** Sums over finite maps. */
module Sums {

  function Get(m: map<string, real>, p: string): real {
    if p in m then m[p] else 0.0
  }

  ghost function Sum(m: map<string, real>): real
    decreases |m|
  {
    if m == map[] then 0.0
    else
      var p :| p in m;
      assert (m - {p}).Keys == m.Keys - {p};
      m[p] + Sum(m - {p})
  }

  lemma {:induction false} SumPick(m: map<string, real>, p: string)
    requires p in m
    ensures Sum(m) == m[p] + Sum(m - {p})
    decreases |m|
  {
    var q :| q in m && Sum(m) == m[q] + Sum(m - {q});
    if q != p {
      assert (m - {q}).Keys == m.Keys - {q} && (m - {p}).Keys == m.Keys - {p};
      SumPick(m - {q}, p);
      SumPick(m - {p}, q);
      assert m - {q} - {p} == m - {p} - {q};
    }
  }

  lemma SumUpdate(m: map<string, real>, p: string, x: real)
    ensures Sum(m[p := x]) == Sum(m) - Get(m, p) + x
  {
    SumPick(m[p := x], p);
    assert m[p := x] - {p} == m - {p};
    if p in m {
      SumPick(m, p);
    } else {
      assert m - {p} == m;
    }
  }

  /** How far each entry of `d` is from the entry it replaces in `m`. */
  function Shift(m: map<string, real>, d: map<string, real>): map<string, real> {
    map p | p in d :: d[p] - Get(m, p)
  }

  lemma Shrinks(d: map<string, real>, p: string)
    requires p in d
    ensures |d - {p}| < |d|
  {
  }

  lemma OverrideStep(m: map<string, real>, d: map<string, real>, p: string)
    requires p in d
    ensures (m + (d - {p}))[p := d[p]] == m + d && Get(m + (d - {p}), p) == Get(m, p)
  {
  }

  lemma ShiftStep(m: map<string, real>, d: map<string, real>, p: string)
    ensures Shift(m, d) - {p} == Shift(m, d - {p})
  {
  }

  lemma {:induction false} SumOverride(m: map<string, real>, d: map<string, real>)
    ensures Sum(m + d) == Sum(m) + Sum(Shift(m, d))
    decreases |d|
  {
    if d == map[] {
      assert m + d == m && Shift(m, d) == map[];
    } else {
      var p :| p in d;
      Shrinks(d, p);
      OverrideStep(m, d, p);
      ShiftStep(m, d, p);
      var m', shift := m + (d - {p}), Shift(m, d);
      SumOverride(m, d - {p});
      SumUpdate(m', p, d[p]);
      SumPick(shift, p);
    }
  }
}
