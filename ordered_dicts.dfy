/** Python dicts from string keys to floats, as the list of their entries in
    insertion order. A dict's iteration order is its insertion order, and the
    source iterates such dicts, so the order is part of the model. */
module OrderedDicts {

  datatype Entry = Entry(key: string, val: real)

  /** The keys in iteration order. */
  function KeySeq(d: seq<Entry>): (ks: seq<string>)
    ensures |ks| == |d|
    ensures forall i :: 0 <= i < |d| ==> ks[i] == d[i].key
  {
    if d == [] then [] else [d[0].key] + KeySeq(d[1..])
  }

  ghost predicate DistinctKeys(d: seq<Entry>) {
    forall i, j :: 0 <= i < j < |d| ==> d[i].key != d[j].key
  }

  /** `d.get(k, default)` */
  function Get(d: seq<Entry>, k: string, default: real): real {
    if d == [] then default
    else if d[0].key == k then d[0].val
    else Get(d[1..], k, default)
  }

  /** `k in d` */
  predicate HasKey(d: seq<Entry>, k: string) {
    d != [] && (d[0].key == k || HasKey(d[1..], k))
  }

  /** A key is in the dict exactly when it is among the keys. */
  lemma {:induction false} HasKeySeq(d: seq<Entry>, k: string)
    ensures HasKey(d, k) <==> k in KeySeq(d)
  {
    if d != [] {
      HasKeySeq(d[1..], k);
      assert KeySeq(d) == [d[0].key] + KeySeq(d[1..]);
    }
  }

  /** The sum of the values, `sum(d.values())`. */
  function SumValues(d: seq<Entry>): real {
    if d == [] then 0.0 else d[0].val + SumValues(d[1..])
  }

  /** `d[k] = v`: an existing key keeps its place and gets the new value, a new
      key is appended at the end. */
  function Put(d: seq<Entry>, k: string, v: real): seq<Entry> {
    if d == [] then [Entry(k, v)]
    else if d[0].key == k then [Entry(k, v)] + d[1..]
    else [d[0]] + Put(d[1..], k, v)
  }

  /** Storing keeps the key order and appends a new key. */
  lemma {:induction false} PutKeys(d: seq<Entry>, k: string, v: real)
    ensures KeySeq(Put(d, k, v)) == if k in KeySeq(d) then KeySeq(d) else KeySeq(d) + [k]
  {
    if d != [] {
      assert KeySeq(d) == [d[0].key] + KeySeq(d[1..]);
      PutKeys(d[1..], k, v);
    }
  }

  /** Storing the same key into two dicts with the same keys leaves them with
      the same keys. */
  lemma {:induction false} PutSameKeys(d: seq<Entry>, e: seq<Entry>, k: string, v: real, w: real)
    requires KeySeq(d) == KeySeq(e)
    ensures KeySeq(Put(d, k, v)) == KeySeq(Put(e, k, w))
  {
    if d != [] {
      assert KeySeq(d)[0] == d[0].key && KeySeq(e)[0] == e[0].key;
      assert KeySeq(d[1..]) == KeySeq(d)[1..] && KeySeq(e[1..]) == KeySeq(e)[1..];
      PutSameKeys(d[1..], e[1..], k, v, w);
    }
  }

  /** After storing, the key reads the new value and every other key reads
      what it read before. */
  lemma {:induction false} PutGet(d: seq<Entry>, k: string, v: real, j: string, x: real)
    ensures Get(Put(d, k, v), j, x) == if j == k then v else Get(d, j, x)
  {
    if d != [] && d[0].key != k {
      PutGet(d[1..], k, v, j, x);
    }
  }

  /** Storing replaces the key's old contribution to the sum by the new value. */
  lemma {:induction false} PutSum(d: seq<Entry>, k: string, v: real)
    ensures SumValues(Put(d, k, v)) == SumValues(d) - Get(d, k, 0.0) + v
  {
    if d != [] && d[0].key != k {
      PutSum(d[1..], k, v);
    }
  }

  lemma {:induction false} PutKeepsDistinct(d: seq<Entry>, k: string, v: real)
    requires DistinctKeys(d)
    ensures DistinctKeys(Put(d, k, v))
  {
    var r := Put(d, k, v);
    var ks, rs := KeySeq(d), KeySeq(r);
    PutKeys(d, k, v);
    forall i, j | 0 <= i < j < |r| ensures r[i].key != r[j].key {
      assert rs[i] == r[i].key && rs[j] == r[j].key;
      if k in ks {
        assert rs == ks;
      } else {
        assert rs == ks + [k];
        if j == |ks| {
          assert rs[i] == ks[i];
        }
      }
    }
  }

  /** With distinct keys, `Get` finds the value stored at a key's position. */
  lemma {:induction false} GetAt(d: seq<Entry>, i: nat, x: real)
    requires DistinctKeys(d) && i < |d|
    ensures Get(d, d[i].key, x) == d[i].val
  {
    if i > 0 {
      assert d[0].key != d[i].key;
      assert d[1..][i - 1] == d[i];
      GetAt(d[1..], i - 1, x);
    }
  }

  /** A key that is not present yields the default. */
  lemma {:induction false} GetAbsent(d: seq<Entry>, k: string, x: real)
    requires k !in KeySeq(d)
    ensures Get(d, k, x) == x
  {
    if d != [] {
      assert KeySeq(d)[0] == d[0].key;
      assert KeySeq(d[1..]) == KeySeq(d)[1..];
      GetAbsent(d[1..], k, x);
    }
  }

  /** The sum over a concatenation is the sum of the sums. */
  lemma {:induction false} SumValuesAppend(a: seq<Entry>, b: seq<Entry>)
    ensures SumValues(a + b) == SumValues(a) + SumValues(b)
  {
    if a != [] {
      assert (a + b)[1..] == a[1..] + b;
      SumValuesAppend(a[1..], b);
    } else {
      assert a + b == b;
    }
  }

  /** The set of keys. */
  function KeySet(d: seq<Entry>): set<string> {
    if d == [] then {} else {d[0].key} + KeySet(d[1..])
  }

  /** A key is in the key set exactly when it is in the key sequence. */
  lemma {:induction false} KeySetSeq(d: seq<Entry>)
    ensures forall c :: c in KeySet(d) <==> c in KeySeq(d)
  {
    if d != [] {
      KeySetSeq(d[1..]);
      assert KeySeq(d) == [d[0].key] + KeySeq(d[1..]);
    }
  }

  /** With distinct keys there are as many keys as entries. */
  lemma {:induction false} KeySetSize(d: seq<Entry>)
    requires DistinctKeys(d)
    ensures |KeySet(d)| == |d|
  {
    if d != [] {
      var rest := d[1..];
      assert DistinctKeys(rest);
      KeySetSize(rest);
      KeySetSeq(rest);
      var ks := KeySeq(rest);
      forall i | 0 <= i < |ks| ensures ks[i] != d[0].key {
        assert ks[i] == d[i + 1].key;
      }
      assert d[0].key !in KeySet(rest);
    }
  }
}
