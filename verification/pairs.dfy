/**
 * Key/value attachments of a log record (logpair.go): the pair type and the
 * conversion of an attachment map into a sequence of pairs.
 */
module Pairs {

  /**
   * An attached value. A string is written as it is; any other value is
   * written as its default text form, which Text carries.
   */
  datatype Value = Str(s: string) | Other(text: string)

  /** The text a value is written as. */
  function ToText(v: Value): (r: string)
    ensures v.Str? ==> r == v.s
    ensures v.Other? ==> r == v.text
  {
    match v
    case Str(s) => s
    case Other(text) => text
  }

  datatype Pair = Pair(key: string, value: Value)

  /**
   * ps lists the entries of m: one pair per key, each with the map's value
   * at that key, in some order.
   */
  ghost predicate Listing(ps: seq<Pair>, m: map<string, Value>)
  {
    && |ps| == |m|
    && (forall i :: 0 <= i < |ps| ==> ps[i].key in m && ps[i].value == m[ps[i].key])
    && (forall i, j :: 0 <= i < j < |ps| ==> ps[i].key != ps[j].key)
    && (forall k :: k in m ==> exists i :: 0 <= i < |ps| && ps[i].key == k)
  }

  /**
   * Turns the attachment map into pairs, one per entry. The iteration order
   * of the map is not fixed, so the key taken next is chosen arbitrarily.
   */
  method KvMapAsLogPairs(kvm: map<string, Value>) returns (pairs: seq<Pair>)
    ensures Listing(pairs, kvm)
  {
    pairs := [];
    var rest := kvm.Keys;
    while rest != {}
      invariant rest <= kvm.Keys
      invariant |pairs| + |rest| == |kvm.Keys|
      invariant forall i :: 0 <= i < |pairs| ==> pairs[i].key in kvm.Keys - rest && pairs[i].value == kvm[pairs[i].key]
      invariant forall i, j :: 0 <= i < j < |pairs| ==> pairs[i].key != pairs[j].key
      invariant forall k :: k in kvm.Keys - rest ==> exists i :: 0 <= i < |pairs| && pairs[i].key == k
      decreases |rest|
    {
      var k :| k in rest;
      ghost var before, left := pairs, rest;
      pairs := pairs + [Pair(k, kvm[k])];
      rest := rest - {k};
      forall k' | k' in kvm.Keys - rest ensures exists i :: 0 <= i < |pairs| && pairs[i].key == k' {
        if k' == k {
          assert pairs[|before|].key == k';
        } else {
          assert k' in kvm.Keys - left;
          var i :| 0 <= i < |before| && before[i].key == k';
          assert pairs[i].key == k';
        }
      }
    }
    assert kvm.Keys - rest == kvm.Keys;
    assert |kvm| == |kvm.Keys|;
  }

  /** The empty map (Go's nil map included) is listed by the empty sequence only. */
  lemma ListingOfEmptyMap(ps: seq<Pair>)
    requires Listing(ps, map[])
    ensures ps == []
  {
  }

  /** In a sequence without repeated keys, a pair occurs at most once. */
  lemma {:induction false} DistinctKeysCount(ps: seq<Pair>, p: Pair)
    requires forall i, j :: 0 <= i < j < |ps| ==> ps[i].key != ps[j].key
    ensures multiset(ps)[p] == if p in ps then 1 else 0
  {
    if ps != [] {
      var n := |ps| - 1;
      DistinctKeysCount(ps[..n], p);
      assert ps == ps[..n] + [ps[n]];
      if ps[n] == p {
        forall i | 0 <= i < n ensures ps[..n][i] != p {
          assert ps[i].key != ps[n].key;
        }
      }
    }
  }

  /**
   * Any two listings of one map hold the same pairs: they differ only in
   * order, so the order of the map's iteration is all that is left open.
   */
  lemma ListingsArePermutations(ps: seq<Pair>, qs: seq<Pair>, m: map<string, Value>)
    requires Listing(ps, m) && Listing(qs, m)
    ensures multiset(ps) == multiset(qs)
  {
    forall p ensures multiset(ps)[p] == multiset(qs)[p] {
      DistinctKeysCount(ps, p);
      DistinctKeysCount(qs, p);
      if p in ps {
        var i :| 0 <= i < |ps| && ps[i] == p;
        var j :| 0 <= j < |qs| && qs[j].key == p.key;
        assert qs[j] == p;
      }
      if p in qs {
        var j :| 0 <= j < |qs| && qs[j] == p;
        var i :| 0 <= i < |ps| && ps[i].key == p.key;
        assert ps[i] == p;
      }
    }
  }
}
