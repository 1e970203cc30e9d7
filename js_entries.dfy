/**
 * String-keyed dictionaries with the insertion semantics of JavaScript's
 * `Object.fromEntries` and `new Map(entries)`: entries keep the order in which
 * their key was first inserted, and inserting a key that is already present
 * replaces its value in place, so the value of the LAST entry for a key wins.
 * (Integer-like object keys, which JavaScript enumerates first, do not occur
 * in the plugin's tables.)
 */
module JsEntries {
  import opened Wrappers

  type Entries<V> = seq<(string, V)>

  predicate HasKey<V>(t: Entries<V>, k: string) {
    exists i :: 0 <= i < |t| && t[i].0 == k
  }

  predicate DistinctKeys<V>(t: Entries<V>) {
    forall i, j :: 0 <= i < j < |t| ==> t[i].0 != t[j].0
  }

  function KeysOf<V>(t: Entries<V>): (r: seq<string>)
    ensures |r| == |t| && forall i :: 0 <= i < |t| ==> r[i] == t[i].0
  {
    seq(|t|, i requires 0 <= i < |t| => t[i].0)
  }

  /** The position of the first entry whose key is `k`. */
  function IndexOfKey<V>(t: Entries<V>, k: string): (r: Option<nat>)
    ensures r.None? <==> !HasKey(t, k)
    ensures r.Some? ==> r.value < |t| && t[r.value].0 == k && forall j :: 0 <= j < r.value ==> t[j].0 != k
  {
    if t == [] then None
    else if t[0].0 == k then Some(0)
    else
      match IndexOfKey(t[1..], k)
      case None => None
      case Some(i) => Some(i + 1)
  }

  /** `t[k]`: the value of the first entry whose key is `k`, or None (undefined). */
  function Get<V>(t: Entries<V>, k: string): (r: Option<V>)
    ensures r.None? <==> !HasKey(t, k)
  {
    match IndexOfKey(t, k)
    case None => None
    case Some(i) => Some(t[i].1)
  }

  /** In a dictionary with distinct keys, looking up an entry's key yields that entry's value. */
  lemma GetDistinct<V>(t: Entries<V>, i: nat)
    requires DistinctKeys(t) && i < |t|
    ensures Get(t, t[i].0) == Some(t[i].1)
  {
    var j := IndexOfKey(t, t[i].0).value;
    assert !(j < i) && !(i < j);
  }

  /** `dict[k] = v` on an insertion-ordered dictionary: replace in place, or append. */
  function Put<V>(t: Entries<V>, k: string, v: V): (r: Entries<V>)
    ensures !HasKey(t, k) ==> r == t + [(k, v)]
    ensures HasKey(t, k) ==> exists i :: 0 <= i < |t| && t[i].0 == k && r == t[i := (k, v)]
  {
    match IndexOfKey(t, k)
    case None => t + [(k, v)]
    case Some(i) => t[i := (k, v)]
  }

  lemma PutKeys<V>(t: Entries<V>, k: string, v: V)
    ensures KeysOf(Put(t, k, v)) == if HasKey(t, k) then KeysOf(t) else KeysOf(t) + [k]
  {
  }

  lemma PutDistinct<V>(t: Entries<V>, k: string, v: V)
    requires DistinctKeys(t)
    ensures DistinctKeys(Put(t, k, v))
  {
  }

  lemma PutGet<V>(t: Entries<V>, k: string, v: V, k': string)
    ensures Get(Put(t, k, v), k') == if k' == k then Some(v) else Get(t, k')
  {
    var r := Put(t, k, v);
    match IndexOfKey(t, k)
    case None =>
      if k' == k {
        assert r[|t|].0 == k;
        var b := IndexOfKey(r, k').value;
        assert b == |t|;
      } else if !HasKey(t, k') {
        assert !HasKey(r, k');
      } else {
        var a := IndexOfKey(t, k').value;
        assert r[a].0 == k';
        var b := IndexOfKey(r, k').value;
        assert !(a < b) && !(b < a);
      }
    case Some(i) =>
      if k' == k {
        assert r[i].0 == k;
        var b := IndexOfKey(r, k').value;
        assert !(i < b) && !(b < i);
      } else if HasKey(t, k') {
        var a := IndexOfKey(t, k').value;
        assert r[a].0 == k';
        var b := IndexOfKey(r, k').value;
        assert t[b].0 == k';
        assert !(a < b) && !(b < a);
      } else {
        assert !HasKey(r, k');
      }
  }

  /** `Object.fromEntries(es)` and `new Map(es)`: the entries inserted one after another. */
  function FromEntries<V>(es: Entries<V>): Entries<V>
  {
    if es == [] then [] else Put(FromEntries(es[..|es| - 1]), es[|es| - 1].0, es[|es| - 1].1)
  }

  /** The value of the last entry of `es` whose key is `k`. */
  function LastValue<V>(es: Entries<V>, k: string): Option<V>
  {
    if es == [] then None
    else if es[|es| - 1].0 == k then Some(es[|es| - 1].1)
    else LastValue(es[..|es| - 1], k)
  }

  /** When no later entry has the key of entry `i`, entry `i` holds the last value of that key. */
  lemma {:induction false} LastValueAt<V>(es: Entries<V>, i: nat)
    requires i < |es|
    requires forall j :: i < j < |es| ==> es[j].0 != es[i].0
    ensures LastValue(es, es[i].0) == Some(es[i].1)
  {
    if i < |es| - 1 {
      LastValueAt(es[..|es| - 1], i);
    }
  }

  /** A last value is the value of some entry with that key. */
  lemma {:induction false} LastValueEntry<V>(es: Entries<V>, k: string)
    requires LastValue(es, k).Some?
    ensures exists i :: 0 <= i < |es| && es[i] == (k, LastValue(es, k).value)
  {
    if es[|es| - 1].0 != k {
      var init := es[..|es| - 1];
      LastValueEntry(init, k);
      var i :| 0 <= i < |init| && init[i] == (k, LastValue(init, k).value);
      assert es[i] == init[i];
    }
  }

  /** Later entries win: the dictionary holds, for every key, the value of its last entry. */
  lemma {:induction false} FromEntriesGet<V>(es: Entries<V>, k: string)
    ensures Get(FromEntries(es), k) == LastValue(es, k)
  {
    if es != [] {
      FromEntriesGet(es[..|es| - 1], k);
      PutGet(FromEntries(es[..|es| - 1]), es[|es| - 1].0, es[|es| - 1].1, k);
    }
  }

  /** The dictionary has one entry per key. */
  lemma {:induction false} FromEntriesDistinct<V>(es: Entries<V>)
    ensures DistinctKeys(FromEntries(es))
  {
    if es != [] {
      FromEntriesDistinct(es[..|es| - 1]);
      PutDistinct(FromEntries(es[..|es| - 1]), es[|es| - 1].0, es[|es| - 1].1);
    }
  }

  /** The dictionary has exactly the keys of its entries. */
  lemma {:induction false} FromEntriesKeys<V>(es: Entries<V>, k: string)
    ensures HasKey(FromEntries(es), k) <==> HasKey(es, k)
  {
    if es != [] {
      var init := es[..|es| - 1];
      FromEntriesKeys(init, k);
      assert HasKey(init, k) ==> HasKey(es, k) by {
        if HasKey(init, k) {
          var i :| 0 <= i < |init| && init[i].0 == k;
          assert es[i].0 == k;
        }
      }
      assert HasKey(es, k) && es[|es| - 1].0 != k ==> HasKey(init, k) by {
        if HasKey(es, k) && es[|es| - 1].0 != k {
          var i :| 0 <= i < |es| && es[i].0 == k;
          assert init[i].0 == k;
        }
      }
      PutGet(FromEntries(init), es[|es| - 1].0, es[|es| - 1].1, k);
    }
  }

  /** Entries with distinct keys are stored as they are, in their order. */
  lemma {:induction false} FromEntriesOfDistinct<V>(es: Entries<V>)
    requires DistinctKeys(es)
    ensures FromEntries(es) == es
  {
    if es != [] {
      var init := es[..|es| - 1];
      assert DistinctKeys(init);
      FromEntriesOfDistinct(init);
      FromEntriesKeys(init, es[|es| - 1].0);
      assert !HasKey(init, es[|es| - 1].0);
      assert init + [es[|es| - 1]] == es;
    }
  }

  /** A prefix of a dictionary with distinct keys has distinct keys, none of them the key of a later entry. */
  lemma DistinctPrefix<V>(t: Entries<V>, k: nat)
    requires DistinctKeys(t) && k <= |t|
    ensures DistinctKeys(t[..k])
    ensures forall j :: k <= j < |t| ==> !HasKey(t[..k], t[j].0)
  {
  }

  /** Entries whose keys are new to the dictionary built so far are appended in their order. */
  lemma {:induction false} FromEntriesExtend<V>(es: Entries<V>, n: nat)
    requires n <= |es|
    requires DistinctKeys(FromEntries(es[..n]) + es[n..])
    ensures FromEntries(es) == FromEntries(es[..n]) + es[n..]
  {
    var t := FromEntries(es[..n]);
    if n == |es| {
      assert es[..n] == es;
    } else {
      var m := |es| - 1;
      var init := es[..m];
      var u := t + es[n..];
      assert init[..n] == es[..n];
      assert init[n..] == es[n..m];
      assert u[..|u| - 1] == t + es[n..m];
      DistinctPrefix(u, |u| - 1);
      FromEntriesExtend(init, n);
      assert FromEntries(init) == t + es[n..m];
      assert u[|u| - 1] == es[m];
      assert !HasKey(t + es[n..m], es[m].0);
      assert FromEntries(es) == Put(FromEntries(init), es[m].0, es[m].1);
      assert (t + es[n..m]) + [(es[m].0, es[m].1)] == u;
    }
  }

  /** Entries whose only shared key is that of positions `i` and `j` have distinct keys once `j` is left out. */
  lemma DistinctWithout<V>(es: Entries<V>, i: nat, j: nat)
    requires i < j < |es|
    requires forall p, q :: 0 <= p < q < |es| && !(p == i && q == j) ==> es[p].0 != es[q].0
    ensures DistinctKeys(es[..j] + es[j + 1..])
  {
    var c := es[..j] + es[j + 1..];
    forall p, q | 0 <= p < q < |c| ensures c[p].0 != c[q].0 {
      var p' := if p < j then p else p + 1;
      var q' := if q < j then q else q + 1;
      assert c[p] == es[p'] && c[q] == es[q'];
    }
  }

  /** Entries around one left out have distinct keys: so do those before it. */
  lemma DistinctBefore<V>(es: Entries<V>, j: nat)
    requires j < |es| && DistinctKeys(es[..j] + es[j + 1..])
    ensures DistinctKeys(es[..j])
  {
    var head := es[..j];
    var rest := es[j + 1..];
    forall p, q | 0 <= p < q < |head| ensures head[p].0 != head[q].0 {
      assert (head + rest)[p] == head[p] && (head + rest)[q] == head[q];
    }
  }

  /** The entry at `j` repeats the key of the entry at `i` among distinct entries before it: it replaces that entry in place. */
  lemma FromEntriesRepeatStep<V>(es: Entries<V>, i: nat, j: nat)
    requires i < j < |es| && es[i].0 == es[j].0 && DistinctKeys(es[..j])
    ensures FromEntries(es[..j + 1]) == es[..j][i := es[j]]
  {
    var head := es[..j];
    FromEntriesOfDistinct(head);
    assert es[..j + 1][..j] == head;
    var a := IndexOfKey(head, es[j].0).value;
    assert a == i by {
      assert !(a < i) && !(i < a);
    }
  }

  /** Replacing an entry by one with the same key keeps keys distinct. */
  lemma DistinctReplaced<V>(head: Entries<V>, rest: Entries<V>, i: nat, e: (string, V))
    requires i < |head| && head[i].0 == e.0 && DistinctKeys(head + rest)
    ensures DistinctKeys(head[i := e] + rest)
  {
    var u := head[i := e] + rest;
    forall p, q | 0 <= p < q < |u| ensures u[p].0 != u[q].0 {
      assert u[p].0 == (head + rest)[p].0 && u[q].0 == (head + rest)[q].0;
    }
  }

  /**
   * With one key repeated once, the later entry replaces the earlier one in
   * its place and every other entry keeps its own.
   */
  lemma FromEntriesOneRepeat<V>(es: Entries<V>, i: nat, j: nat)
    requires i < j < |es| && es[i].0 == es[j].0
    requires DistinctKeys(es[..j] + es[j + 1..])
    ensures FromEntries(es) == es[..j][i := es[j]] + es[j + 1..]
  {
    var updated := es[..j][i := es[j]];
    var rest := es[j + 1..];
    DistinctBefore(es, j);
    FromEntriesRepeatStep(es, i, j);
    DistinctReplaced(es[..j], rest, i, es[j]);
    FromEntriesExtend(es, j + 1);
  }
}
