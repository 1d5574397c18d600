/**
 * A JavaScript object used as a dictionary (`Record<string, V>`): a list of
 * key/value pairs in insertion order. Assigning to an existing key keeps its
 * position; assigning to a new key appends it.
 */
module Records {

  type Record<V> = seq<(string, V)>

  function Keys<V>(d: Record<V>): (ks: seq<string>)
    ensures |ks| == |d|
  {
    seq(|d|, i requires 0 <= i < |d| => d[i].0)
  }

  /** The position of `k` in `d`, or `|d|` when it is not a key. */
  function KeyIndex<V>(d: Record<V>, k: string): (i: nat)
    ensures i <= |d|
    ensures i < |d| ==> d[i].0 == k
    ensures forall j :: 0 <= j < i ==> d[j].0 != k
  {
    if |d| == 0 then 0
    else if d[0].0 == k then 0
    else 1 + KeyIndex(d[1..], k)
  }

  /** `k in d` */
  predicate HasKey<V>(d: Record<V>, k: string) {
    KeyIndex(d, k) < |d|
  }

  /** `k` is a key exactly when some entry carries it. */
  lemma HasKeyIff<V>(d: Record<V>, k: string)
    ensures HasKey(d, k) <==> exists i :: 0 <= i < |d| && d[i].0 == k
  {
  }

  /** No key occurs twice, as in every JavaScript object. */
  predicate DistinctKeys<V>(d: Record<V>) {
    forall i, j :: 0 <= i < j < |d| ==> d[i].0 != d[j].0
  }

  /** `d[k]`, or `dflt` when `k` is not a key. */
  function LookupOr<V>(d: Record<V>, k: string, dflt: V): (v: V)
    ensures !HasKey(d, k) ==> v == dflt
    ensures HasKey(d, k) ==> d[KeyIndex(d, k)] == (k, v)
  {
    var i := KeyIndex(d, k);
    if i == |d| then dflt else d[i].1
  }

  /** In an object with distinct keys, the entry for `k` holds `d[k]`. */
  lemma LookupDistinct<V>(d: Record<V>, k: string, dflt: V, i: int)
    requires DistinctKeys(d) && 0 <= i < |d| && d[i].0 == k
    ensures LookupOr(d, k, dflt) == d[i].1
  {
    assert KeyIndex(d, k) <= i;
  }

  /** `d[k] = v`. */
  function Put<V>(d: Record<V>, k: string, v: V): Record<V>
  {
    var i := KeyIndex(d, k);
    if i == |d| then d + [(k, v)] else d[i := (k, v)]
  }

  /** Assigning to an existing key keeps the key order; a new key is
      appended; other entries are untouched. */
  lemma PutShape<V>(d: Record<V>, k: string, v: V)
    ensures HasKey(d, k) ==> |Put(d, k, v)| == |d| && Keys(Put(d, k, v)) == Keys(d)
    ensures !HasKey(d, k) ==> Put(d, k, v) == d + [(k, v)]
    ensures forall i :: 0 <= i < |Put(d, k, v)| && Put(d, k, v)[i].0 != k ==> i < |d| && Put(d, k, v)[i] == d[i]
  {
  }

  /** Assignment keeps the keys distinct. */
  lemma PutDistinct<V>(d: Record<V>, k: string, v: V)
    requires DistinctKeys(d)
    ensures DistinctKeys(Put(d, k, v))
  {
    PutShape(d, k, v);
  }

  /** Any position satisfying the contract of `KeyIndex` is the one it
      computes. */
  lemma KeyIndexUnique<V>(d: Record<V>, k: string, i: nat)
    requires i <= |d| && (i < |d| ==> d[i].0 == k)
    requires forall j :: 0 <= j < i ==> d[j].0 != k
    ensures KeyIndex(d, k) == i
  {
  }

  /** Reading a key back after writing it, and reading any other key. */
  lemma LookupPut<V>(d: Record<V>, k: string, v: V, k': string, dflt: V)
    ensures LookupOr(Put(d, k, v), k', dflt) == if k' == k then v else LookupOr(d, k', dflt)
  {
    PutKeyIndex(d, k, v, k');
  }

  /** After `d[k] = v`, the keys are those of `d` and `k`. */
  lemma HasKeyPut<V>(d: Record<V>, k: string, v: V, k': string)
    ensures HasKey(Put(d, k, v), k') <==> k' == k || HasKey(d, k')
  {
    PutKeyIndex(d, k, v, k');
  }

  /** Where a key sits after `d[k] = v`. */
  lemma PutKeyIndex<V>(d: Record<V>, k: string, v: V, k': string)
    ensures var r := Put(d, k, v);
      if k' == k then KeyIndex(r, k) == KeyIndex(d, k) && r[KeyIndex(r, k)] == (k, v)
      else if HasKey(d, k') then KeyIndex(r, k') == KeyIndex(d, k') && r[KeyIndex(r, k')] == d[KeyIndex(d, k')]
      else KeyIndex(r, k') == |r|
  {
    var r := Put(d, k, v);
    var i := KeyIndex(d, k);
    var j := KeyIndex(d, k');
    if k' == k {
      KeyIndexUnique(r, k, i);
    } else if j < |d| {
      KeyIndexUnique(r, k', j);
    } else {
      KeyIndexUnique(r, k', |r|);
    }
  }

  /** Assigning twice to the same key is assigning the second value. */
  lemma PutTwice<V>(d: Record<V>, k: string, v: V, w: V)
    ensures Put(Put(d, k, v), k, w) == Put(d, k, w)
  {
    PutKeyIndex(d, k, v, k);
  }

  // -----------------------------------------------------------------------
  // Grouping a list of labelled values into a record
  // -----------------------------------------------------------------------

  /** Some entry of `ps` carries the label `k`. */
  predicate Mentions<V>(ps: seq<(string, V)>, k: string) {
    exists i :: 0 <= i < |ps| && ps[i].0 == k
  }

  lemma MentionsSnoc<V>(ps: seq<(string, V)>, p: (string, V), k: string)
    ensures Mentions(ps + [p], k) <==> Mentions(ps, k) || p.0 == k
  {
    var s := ps + [p];
    if Mentions(s, k) && p.0 != k {
      var i :| 0 <= i < |s| && s[i].0 == k;
      assert s[i] == ps[i];
    }
    if Mentions(ps, k) {
      var i :| 0 <= i < |ps| && ps[i].0 == k;
      assert s[i] == ps[i];
    }
    assert s[|ps|] == p;
  }

  /** `d[k] = (d[k] || 0) + n` */
  function AddTo(d: Record<int>, k: string, n: int): Record<int> {
    Put(d, k, LookupOr(d, k, 0) + n)
  }

  /** Adding to `k` changes the value of `k` by `n` and no other value. */
  lemma AddToLookup(d: Record<int>, k: string, n: int, k': string)
    ensures LookupOr(AddTo(d, k, n), k', 0) == LookupOr(d, k', 0) + (if k' == k then n else 0)
    ensures HasKey(AddTo(d, k, n), k') <==> HasKey(d, k') || k' == k
  {
    LookupPut(d, k, LookupOr(d, k, 0) + n, k', 0);
    HasKeyPut(d, k, LookupOr(d, k, 0) + n, k');
  }

  /** The record built by adding every value of `ps` under its label, in
      order. */
  function SumByKey(ps: seq<(string, int)>): Record<int> {
    if |ps| == 0 then [] else AddTo(SumByKey(ps[..|ps| - 1]), ps[|ps| - 1].0, ps[|ps| - 1].1)
  }

  lemma SumByKeySnoc(ps: seq<(string, int)>, p: (string, int))
    ensures SumByKey(ps + [p]) == AddTo(SumByKey(ps), p.0, p.1)
  {
    assert (ps + [p])[..|ps|] == ps;
  }

  /** The sum of the values labelled `k`: the reference definition of a
      group total. */
  function SumFor(ps: seq<(string, int)>, k: string): int {
    if |ps| == 0 then 0 else (if ps[0].0 == k then ps[0].1 else 0) + SumFor(ps[1..], k)
  }

  lemma {:induction false} SumForSnoc(ps: seq<(string, int)>, p: (string, int), k: string)
    ensures SumFor(ps + [p], k) == SumFor(ps, k) + (if p.0 == k then p.1 else 0)
    decreases |ps|
  {
    if |ps| > 0 {
      assert (ps + [p])[1..] == ps[1..] + [p];
      SumForSnoc(ps[1..], p, k);
    } else {
      assert (ps + [p])[1..] == [];
    }
  }

  /** Each group total is the sum of its values, and the groups are
      exactly the labels that occur. */
  lemma {:induction false} SumByKeySpec(ps: seq<(string, int)>, k: string)
    ensures LookupOr(SumByKey(ps), k, 0) == SumFor(ps, k)
    ensures HasKey(SumByKey(ps), k) <==> Mentions(ps, k)
    decreases |ps|
  {
    if |ps| > 0 {
      var init, last := ps[..|ps| - 1], ps[|ps| - 1];
      assert init + [last] == ps;
      SumByKeySpec(init, k);
      SumForSnoc(init, last, k);
      MentionsSnoc(init, last, k);
      AddToLookup(SumByKey(init), last.0, last.1, k);
    }
  }

  /** A grouped record never repeats a label. */
  lemma {:induction false} SumByKeyDistinct(ps: seq<(string, int)>)
    ensures DistinctKeys(SumByKey(ps))
    decreases |ps|
  {
    if |ps| > 0 {
      var init, last := ps[..|ps| - 1], ps[|ps| - 1];
      SumByKeyDistinct(init);
      PutDistinct(SumByKey(init), last.0, LookupOr(SumByKey(init), last.0, 0) + last.1);
    }
  }

  /** The record built by assigning every value of `ps` to its label, in
      order, so that the last value of each label wins. */
  function LastByKey<V>(ps: seq<(string, V)>): Record<V> {
    if |ps| == 0 then [] else Put(LastByKey(ps[..|ps| - 1]), ps[|ps| - 1].0, ps[|ps| - 1].1)
  }

  lemma LastByKeySnoc<V>(ps: seq<(string, V)>, p: (string, V))
    ensures LastByKey(ps + [p]) == Put(LastByKey(ps), p.0, p.1)
  {
    assert (ps + [p])[..|ps|] == ps;
  }

  /** Entry `i` is the last one labelled `k`. */
  predicate IsLastOf<V>(ps: seq<(string, V)>, i: int, k: string) {
    0 <= i < |ps| && ps[i].0 == k && forall j :: i < j < |ps| ==> ps[j].0 != k
  }

  /** Each label holds the value of its last occurrence, and the labels
      are exactly those that occur. */
  lemma {:induction false} LastByKeySpec<V>(ps: seq<(string, V)>, k: string, dflt: V)
    ensures HasKey(LastByKey(ps), k) <==> Mentions(ps, k)
    ensures Mentions(ps, k) ==> exists i :: IsLastOf(ps, i, k) && ps[i].1 == LookupOr(LastByKey(ps), k, dflt)
    decreases |ps|
  {
    if |ps| > 0 {
      var init, last := ps[..|ps| - 1], ps[|ps| - 1];
      assert init + [last] == ps;
      LastByKeySpec(init, k, dflt);
      MentionsSnoc(init, last, k);
      HasKeyPut(LastByKey(init), last.0, last.1, k);
      LookupPut(LastByKey(init), last.0, last.1, k, dflt);
      if last.0 == k {
        assert IsLastOf(ps, |ps| - 1, k);
      } else if Mentions(init, k) {
        var i :| IsLastOf(init, i, k) && init[i].1 == LookupOr(LastByKey(init), k, dflt);
        forall j | i < j < |ps| ensures ps[j].0 != k {
          if j < |init| { assert ps[j] == init[j]; }
        }
        assert ps[i] == init[i];
        assert IsLastOf(ps, i, k);
      }
    }
  }

  /** An assigned record never repeats a label. */
  lemma {:induction false} LastByKeyDistinct<V>(ps: seq<(string, V)>)
    ensures DistinctKeys(LastByKey(ps))
    decreases |ps|
  {
    if |ps| > 0 {
      var init, last := ps[..|ps| - 1], ps[|ps| - 1];
      LastByKeyDistinct(init);
      PutDistinct(LastByKey(init), last.0, last.1);
    }
  }
}
