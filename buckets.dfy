/** The three `defaultdict(float)` buckets of the monthly breakdown: a key
    springs into existence at 0.0 the first time `+=` touches it. Sums over
    the values of a bucket are what the totals are made of. */
module Buckets {

  /** `d[k]` of a `defaultdict(float)` read without creating the key. */
  function Get(m: map<string, real>, k: string): real
  {
    if k in m then m[k] else 0.0
  }

  /** `d[k] += v` on a `defaultdict(float)`. */
  function Add(m: map<string, real>, k: string, v: real): (r: map<string, real>)
    ensures r.Keys == m.Keys + {k}
    ensures Get(r, k) == Get(m, k) + v
    ensures forall j :: j != k ==> Get(r, j) == Get(m, j)
  {
    m[k := Get(m, k) + v]
  }

  /** Which values a sum takes: all of them, the positive ones, or the
      negated negative ones. */
  datatype Part = All | Positive | Negative

  function PartOf(p: Part, v: real): real
  {
    match p
    case All => v
    case Positive => if v > 0.0 then v else 0.0
    case Negative => if v < 0.0 then -v else 0.0
  }

  /** The sum of `PartOf(p, v)` over the values `v` of `m`. The order in which
      keys are taken does not matter (SumOfRemove). */
  ghost function SumOf(m: map<string, real>, p: Part): real
    decreases |m|
  {
    if m == map[] then 0.0
    else
      var k :| k in m;
      PartOf(p, m[k]) + SumOf(m - {k}, p)
  }

  lemma {:induction false} SumOfRemove(m: map<string, real>, k: string, p: Part)
    requires k in m
    ensures SumOf(m, p) == PartOf(p, m[k]) + SumOf(m - {k}, p)
    decreases |m|
  {
    var j :| j in m && SumOf(m, p) == PartOf(p, m[j]) + SumOf(m - {j}, p);
    if j != k {
      SumOfRemove(m - {j}, k, p);
      SumOfRemove(m - {k}, j, p);
      assert m - {j} - {k} == m - {k} - {j};
    }
  }

  /** Adding `v` under one key adds `v` to the sum of all values. */
  lemma SumOfAdd(m: map<string, real>, k: string, v: real)
    ensures SumOf(Add(m, k, v), All) == SumOf(m, All) + v
  {
    var r := Add(m, k, v);
    SumOfRemove(r, k, All);
    assert r - {k} == m - {k};
    if k in m {
      SumOfRemove(m, k, All);
    } else {
      assert m - {k} == m;
    }
  }

  /** The totals identity: every value is its positive part minus its
      negative part, so net == expenses - incomes, and both parts are >= 0. */
  lemma {:induction false} PartsSplit(m: map<string, real>)
    ensures SumOf(m, Positive) >= 0.0
    ensures SumOf(m, Negative) >= 0.0
    ensures SumOf(m, All) == SumOf(m, Positive) - SumOf(m, Negative)
    decreases |m|
  {
    if m != map[] {
      var k :| k in m;
      SumOfRemove(m, k, All);
      SumOfRemove(m, k, Positive);
      SumOfRemove(m, k, Negative);
      PartsSplit(m - {k});
    }
  }

  /** `sum(...)` over `d.values()`, keeping the part `p` of each value. */
  method SumWhere(m: map<string, real>, p: Part) returns (s: real)
    ensures s == SumOf(m, p)
  {
    s := 0.0;
    var rest := m.Keys;
    while rest != {}
      invariant rest <= m.Keys
      invariant s == SumOf(m - rest, p)
      decreases |rest|
    {
      var k :| k in rest;
      var done := m - (rest - {k});
      assert done - {k} == m - rest;
      SumOfRemove(done, k, p);
      s := s + PartOf(p, m[k]);
      rest := rest - {k};
    }
    assert m - rest == m;
  }
}
