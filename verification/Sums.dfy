/** Sums over the values of a finite map. */
module Sums {

  ghost function Sum<K(!new)>(m: map<K, nat>): nat
    decreases |m|
  {
    if |m| == 0 then 0 else
      var k :| k in m;
      m[k] + Sum(m - {k})
  }

  lemma {:induction false} SumEmpty<K(!new)>()
    ensures Sum<K>(map[]) == 0
  {}

  lemma {:induction false} SumPick<K(!new)>(m: map<K, nat>) returns (k: K)
    requires |m| > 0
    ensures k in m && Sum(m) == m[k] + Sum(m - {k})
  {
    k :| k in m && Sum(m) == m[k] + Sum(m - {k});
  }

  /** The order in which the entries are added does not matter. */
  lemma {:induction false} SumWithout<K(!new)>(m: map<K, nat>, k: K)
    requires k in m
    ensures Sum(m) == m[k] + Sum(m - {k})
    decreases |m|
  {
    hide Sum;
    var first := SumPick(m);
    if first != k {
      SumWithout(m - {first}, k);
      SumWithout(m - {k}, first);
      assert m - {first} - {k} == m - {k} - {first};
    }
  }

  lemma {:induction false} SumWith<K(!new)>(m: map<K, nat>, k: K, v: nat)
    ensures k !in m ==> Sum(m[k := v]) == Sum(m) + v
    ensures k in m ==> Sum(m[k := v]) + m[k] == Sum(m) + v
  {
    hide Sum;
    var next := m[k := v];
    SumWithout(next, k);
    if k in m {
      SumWithout(m, k);
      assert next - {k} == m - {k};
    } else {
      assert next - {k} == m;
    }
  }

  lemma {:induction false} SumPart<K(!new)>(part: map<K, nat>, whole: map<K, nat>)
    requires part.Keys <= whole.Keys && forall k | k in part :: part[k] == whole[k]
    ensures Sum(part) <= Sum(whole)
    decreases |part|
  {
    hide Sum;
    if |part| == 0 {
      assert part == map[];
      SumEmpty<K>();
    } else {
      var k := SumPick(part);
      SumWithout(whole, k);
      SumPart(part - {k}, whole - {k});
    }
  }
}
