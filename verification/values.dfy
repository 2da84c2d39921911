/** JSON-like values and the ordered key/value records that stand for JavaScript objects.
    A record keeps its keys in insertion order; assigning to a key that is already present
    overwrites the value where it stands, as `obj[key] = value` does. */
module Values {
  import opened Wrappers

  datatype Value =
    | Undefined
    | Null
    | Bool(b: bool)
    | Num(n: int)
    | Str(s: string)
    | Arr(items: seq<Value>)
    | Obj(fields: seq<(string, Value)>)

  type Record = seq<(string, Value)>

  /** The keys of a keyed sequence, in order. */
  function Keys<T>(r: seq<(string, T)>): (ks: seq<string>)
    ensures |ks| == |r|
    ensures forall i :: 0 <= i < |r| ==> ks[i] == r[i].0
  {
    seq(|r|, i requires 0 <= i < |r| => r[i].0)
  }

  /** No element occurs twice. */
  predicate DistinctSeq<T(==)>(s: seq<T>) {
    forall i, j :: 0 <= i < j < |s| ==> s[i] != s[j]
  }

  /** No key occurs twice, as in every JavaScript object. */
  predicate DistinctKeys(r: Record) {
    DistinctSeq(Keys(r))
  }

  /** `obj[key]`, with `None` for a key the object does not have. */
  function Lookup(r: Record, k: string): (v: Option<Value>)
    ensures v.Some? <==> k in Keys(r)
    ensures v.Some? ==> (k, v.value) in r
  {
    if |r| == 0 then None else if r[0].0 == k then Some(r[0].1) else Lookup(r[1..], k)
  }

  /** Looking a key up in a joined record finds it in the first part when it is there. */
  lemma {:induction false} LookupAppend(a: Record, b: Record, k: string)
    ensures Lookup(a + b, k) == if k in Keys(a) then Lookup(a, k) else Lookup(b, k)
  {
    if |a| > 0 {
      assert (a + b)[0] == a[0] && (a + b)[1..] == a[1..] + b;
      KeysCons(a);
      LookupAppend(a[1..], b, k);
    } else {
      assert a + b == b;
    }
  }

  lemma LookupAt(r: Record, i: int)
    requires DistinctKeys(r) && 0 <= i < |r|
    ensures Lookup(r, r[i].0) == Some(r[i].1)
  {
    if i > 0 {
      assert r[0].0 != r[i].0;
      assert r[1..][i - 1] == r[i];
      LookupAt(r[1..], i - 1);
    }
  }

  /** `obj[key] = value`: overwrites in place when the key is present, appends otherwise. */
  function Put(r: Record, k: string, v: Value): (r': Record)
    ensures Lookup(r', k) == Some(v)
    ensures forall k' :: k' != k ==> Lookup(r', k') == Lookup(r, k')
  {
    if |r| == 0 then [(k, v)]
    else if r[0].0 == k then [(k, v)] + r[1..]
    else [r[0]] + Put(r[1..], k, v)
  }

  /** Assigning a key the object does not have appends the entry. */
  lemma {:induction false} PutAppends(r: Record, k: string, v: Value)
    requires k !in Keys(r)
    ensures Put(r, k, v) == r + [(k, v)]
  {
    if |r| > 0 {
      KeysCons(r);
      assert r[0].0 != k;
      PutAppends(r[1..], k, v);
      calc {
        Put(r, k, v);
        [r[0]] + Put(r[1..], k, v);
        [r[0]] + (r[1..] + [(k, v)]);
        { assert r == [r[0]] + r[1..]; }
        r + [(k, v)];
      }
    }
  }

  lemma KeysCons<T>(r: seq<(string, T)>)
    requires |r| > 0
    ensures Keys(r) == [r[0].0] + Keys(r[1..])
  {
  }

  /** Overwriting an existing key leaves the key order as it was. */
  lemma {:induction false} PutKeepsKeys(r: Record, k: string, v: Value)
    requires k in Keys(r)
    ensures |Put(r, k, v)| == |r|
    ensures forall i :: 0 <= i < |r| ==> Put(r, k, v)[i].0 == r[i].0
  {
    if r[0].0 != k {
      assert k in Keys(r[1..]) by {
        var i :| 0 <= i < |r| && Keys(r)[i] == k;
        assert Keys(r[1..])[i - 1] == k;
      }
      PutKeepsKeys(r[1..], k, v);
    }
  }

  lemma {:induction false} PutDistinct(r: Record, k: string, v: Value)
    requires DistinctKeys(r)
    ensures DistinctKeys(Put(r, k, v))
  {
    if k in Keys(r) {
      var r' := Put(r, k, v);
      PutKeepsKeys(r, k, v);
      forall i, j | 0 <= i < j < |r'| ensures r'[i].0 != r'[j].0 {
        assert r'[i].0 == r[i].0 && r'[j].0 == r[j].0;
      }
    } else {
      PutAppends(r, k, v);
      forall i | 0 <= i < |r| ensures r[i].0 != k {
        assert Keys(r)[i] == r[i].0;
      }
    }
  }

  /** Assigns every entry of `entries` in turn. */
  function PutAll(r: Record, entries: Record): Record
    decreases |entries|
  {
    if |entries| == 0 then r else PutAll(Put(r, entries[0].0, entries[0].1), entries[1..])
  }

  /** The value of the last entry of `entries` whose key is `k`. */
  function LastValue(entries: Record, k: string): Option<Value> {
    if |entries| == 0 then None
    else
      var later := LastValue(entries[1..], k);
      if later.Some? then later else if entries[0].0 == k then Some(entries[0].1) else None
  }

  /** After a sequence of assignments a key holds the value assigned to it last, or
      the value it held before when none of the assignments touched it. */
  lemma {:induction false} PutAllLookup(r: Record, entries: Record, k: string)
    ensures Lookup(PutAll(r, entries), k) == (if LastValue(entries, k).Some? then LastValue(entries, k) else Lookup(r, k))
    decreases |entries|
  {
    if |entries| > 0 {
      PutAllLookup(Put(r, entries[0].0, entries[0].1), entries[1..], k);
    }
  }

  /** `obj[k]` on a plain object: a missing property reads as `undefined`. */
  function Property(r: Record, k: string): (v: Value)
    ensures k !in Keys(r) ==> v == Undefined
    ensures k in Keys(r) ==> (k, v) in r
  {
    match Lookup(r, k)
    case Some(v) => v
    case None => Undefined
  }

  /** Assigning one more entry after a sequence of assignments. */
  lemma {:induction false} PutAllSnoc(r: Record, entries: Record, k: string, v: Value)
    ensures PutAll(r, entries + [(k, v)]) == Put(PutAll(r, entries), k, v)
    decreases |entries|
  {
    if |entries| == 0 {
      assert entries + [(k, v)] == [(k, v)];
    } else {
      assert (entries + [(k, v)])[1..] == entries[1..] + [(k, v)];
      PutAllSnoc(Put(r, entries[0].0, entries[0].1), entries[1..], k, v);
    }
  }

  /** The value found for a key was assigned to it by some entry. */
  lemma {:induction false} LastValueIn(entries: Record, k: string)
    ensures LastValue(entries, k).Some? ==> (k, LastValue(entries, k).value) in entries
    decreases |entries|
  {
    if |entries| > 0 {
      LastValueIn(entries[1..], k);
      if LastValue(entries[1..], k).Some? {
        assert (k, LastValue(entries[1..], k).value) in entries[1..];
      }
    }
  }

  /** Assigning keys that are all new appends the entries in order. */
  lemma {:induction false} PutAllFresh(r: Record, entries: Record)
    requires DistinctKeys(r + entries)
    ensures PutAll(r, entries) == r + entries
    decreases |entries|
  {
    if |entries| > 0 {
      var e := entries[0];
      FreshHead(r, entries);
      PutAppends(r, e.0, e.1);
      PutAllFresh(r + [e], entries[1..]);
    }
  }

  /** The first of several fresh entries is fresh for the object, and moving it across keeps the
      keys distinct. */
  lemma FreshHead(r: Record, entries: Record)
    requires DistinctKeys(r + entries) && |entries| > 0
    ensures entries[0].0 !in Keys(r)
    ensures (r + [entries[0]]) + entries[1..] == r + entries
  {
    var e := entries[0];
    forall i | 0 <= i < |r| ensures Keys(r)[i] != e.0 {
      assert (r + entries)[i] == r[i] && (r + entries)[|r|] == e;
    }
    assert entries == [e] + entries[1..];
  }


  lemma {:induction false} PutAllDistinct(r: Record, entries: Record)
    requires DistinctKeys(r)
    ensures DistinctKeys(PutAll(r, entries))
    decreases |entries|
  {
    if |entries| > 0 {
      PutDistinct(r, entries[0].0, entries[0].1);
      PutAllDistinct(Put(r, entries[0].0, entries[0].1), entries[1..]);
    }
  }

  /** JavaScript truthiness of an optional string: present and not empty. */
  predicate Truthy(o: Option<string>) {
    o.Some? && o.value != ""
  }

  /** `a || b` on optional strings. */
  function OrElse(a: Option<string>, b: Option<string>): (r: Option<string>)
    ensures Truthy(a) ==> r == a
    ensures !Truthy(a) ==> r == b
  {
    if Truthy(a) then a else b
  }

  /** JavaScript truthiness of a property value. */
  predicate TruthyValue(v: Value) {
    match v
    case Undefined => false
    case Null => false
    case Bool(b) => b
    case Num(n) => n != 0
    case Str(s) => s != ""
    case _ => true
  }

  /** An optional string as a property value: absent is `undefined`. */
  function OptionalValue(o: Option<string>): Value {
    match o
    case Some(s) => Str(s)
    case None => Undefined
  }

  /** `sub` is `s` with some elements left out and the rest kept in order. */
  predicate IsSubsequence<T(==)>(sub: seq<T>, s: seq<T>)
    decreases |s|
  {
    if |sub| == 0 then true
    else if |s| == 0 then false
    else if sub[0] == s[0] then IsSubsequence(sub[1..], s[1..])
    else IsSubsequence(sub, s[1..])
  }
}
