/** The response normaliser: pure reshaping of validated cloud assets into the display
    structure that is handed to the YAML renderer (salt-api-mcp/src/salt-api-client.ts). */
module Normaliser {
  import opened Wrappers
  import opened Text
  import opened Values

  datatype AdditionalDatum = AdditionalDatum(key: string, kind: string, value: string)

  /** Upstream sends `tags` either as a string-to-string mapping or as a list. */
  datatype Tags = TagMap(entries: seq<(string, string)>) | TagList(items: seq<Value>)

  /** One inventoried cloud resource, as accepted by the asset schema: only `id` is required.
      `name`, `legacyType` and `status` are the older API's field names (`type` in the source). */
  datatype CloudAsset = CloudAsset(
    id: string,
    cloudAccountId: Option<string>,
    cloudId: Option<string>,
    collectStatus: Option<string>,
    endpoints: Option<string>,
    provider: Option<string>,
    region: Option<string>,
    resourceName: Option<string>,
    resourceType: Option<string>,
    accountId: Option<string>,
    firstDiscovered: Option<string>,
    link: Option<string>,
    additionalData: Option<seq<AdditionalDatum>>,
    availableConnectors: Option<seq<Value>>,
    installedConnectors: Option<seq<Value>>,
    tags: Option<Tags>,
    name: Option<string>,
    legacyType: Option<string>,
    status: Option<string>,
    createdAt: Option<string>,
    updatedAt: Option<string>,
    metadata: Option<Record>)

  // ---------------------------------------------------------------------------
  // Provider and resource-type simplification

  /** Classifies a raw provider name. The case-sensitive tests for "AWS" and "Azure" in the
      source are subsumed by their case-insensitive partners; "GCP" is only recognised in
      upper case, "google" in any case. */
  function SimplifyProvider(provider: Option<string>): (r: Option<string>)
    ensures r.None? <==> !Truthy(provider)
    ensures Truthy(provider) ==> (
      var p := provider.value;
      if Includes(Lower(p), "aws") then r == Some("AWS")
      else if Includes(Lower(p), "azure") then r == Some("Azure")
      else if Includes(p, "GCP") || Includes(Lower(p), "google") then r == Some("GCP")
      else r == provider)
  {
    if !Truthy(provider) then None
    else
      var p := provider.value;
      CaseInsensitiveSubsumes(p);
      if Includes(p, "AWS") || Includes(Lower(p), "aws") then Some("AWS")
      else if Includes(p, "Azure") || Includes(Lower(p), "azure") then Some("Azure")
      else if Includes(p, "GCP") || Includes(Lower(p), "google") then Some("GCP")
      else provider
  }

  lemma CaseInsensitiveSubsumes(p: string)
    ensures Includes(p, "AWS") ==> Includes(Lower(p), "aws")
    ensures Includes(p, "Azure") ==> Includes(Lower(p), "azure")
  {
    assert Lower("AWS") == "aws";
    assert Lower("Azure") == "azure";
    if Includes(p, "AWS") {
      IncludesLower(p, "AWS");
    }
    if Includes(p, "Azure") {
      IncludesLower(p, "Azure");
    }
  }

  /** Simplifying an already simplified provider changes nothing. */
  lemma SimplifyProviderIdempotent(provider: Option<string>)
    ensures SimplifyProvider(SimplifyProvider(provider)) == SimplifyProvider(provider)
  {
    var r := SimplifyProvider(provider);
    if r == Some("Azure") {
      AzureIsNotAws();
    } else if r == Some("GCP") {
      assert Lower("GCP") == "gcp";
      assert OccursAt("GCP", "GCP", 0);
    } else if r == Some("AWS") {
      assert Lower("AWS") == "aws";
      assert OccursAt("aws", "aws", 0);
    }
  }

  /** "Azure" is classified as Azure, never as AWS. */
  lemma AzureIsNotAws()
    ensures Lower("Azure") == "azure"
    ensures !Includes("azure", "aws") && Includes("azure", "azure")
  {
    assert Lower("Azure") == "azure";
    forall i | 0 <= i <= 2 ensures !OccursAt("azure", "aws", i) {
      var w := "azure"[i..i + 3];
      assert w[1] == "azure"[i + 1] != 'w' == "aws"[1];
    }
    assert OccursAt("azure", "azure", 0);
  }

  /** The vendor prefixes a resource type may carry, matched case-sensitively. */
  predicate HasVendorPrefix(s: string) {
    StartsWith(s, "AWS-") || StartsWith(s, "Azure-") || StartsWith(s, "GCP-")
  }

  /** Strips at most one leading vendor prefix; absent or empty input gives absent output. */
  function SimplifyResourceType(resourceType: Option<string>): (r: Option<string>)
    ensures r.None? <==> !Truthy(resourceType)
    ensures r.Some? ==> (
      || (r == resourceType && !HasVendorPrefix(r.value))
      || resourceType.value == "AWS-" + r.value
      || resourceType.value == "Azure-" + r.value
      || resourceType.value == "GCP-" + r.value)
    ensures r.Some? && HasVendorPrefix(resourceType.value) ==> |r.value| < |resourceType.value|
  {
    if !Truthy(resourceType) then None
    else
      var t := resourceType.value;
      if StartsWith(t, "AWS-") then assert t == "AWS-" + t[4..]; Some(t[4..])
      else if StartsWith(t, "Azure-") then assert t == "Azure-" + t[6..]; Some(t[6..])
      else if StartsWith(t, "GCP-") then assert t == "GCP-" + t[4..]; Some(t[4..])
      else resourceType
  }

  /** Only one prefix is stripped: a doubled prefix keeps its second copy. */
  lemma SimplifyResourceTypeStripsOnce(rest: string)
    ensures SimplifyResourceType(Some("AWS-AWS-" + rest)) == Some("AWS-" + rest)
  {
    var t := "AWS-AWS-" + rest;
    assert t[..4] == "AWS-";
    assert t[4..] == "AWS-" + rest;
  }

  // ---------------------------------------------------------------------------
  // Empty-field removal

  /** The values `removeEmptyFields` drops, compared with strict equality. */
  predicate IsEmptyValue(v: Value) {
    || v.Null? || v.Undefined?
    || v == Str("") || v == Str("N/A") || v == Str("unknown")
    || (v.Arr? && |v.items| == 0)
  }

  /** Keeps, in order, the entries whose value is not empty; nested values are not visited. */
  function RemoveEmptyFields(rec: Record): (r: Record)
    ensures |r| <= |rec|
    ensures forall e :: e in r ==> e in rec && !IsEmptyValue(e.1)
    ensures forall e :: e in rec && !IsEmptyValue(e.1) ==> e in r
  {
    if |rec| == 0 then []
    else if IsEmptyValue(rec[0].1) then RemoveEmptyFields(rec[1..])
    else [rec[0]] + RemoveEmptyFields(rec[1..])
  }

  lemma {:induction false} RemoveEmptyFieldsSubsequence(rec: Record)
    ensures IsSubsequence(RemoveEmptyFields(rec), rec)
  {
    if |rec| > 0 {
      RemoveEmptyFieldsSubsequence(rec[1..]);
      var tail := RemoveEmptyFields(rec[1..]);
      if !IsEmptyValue(rec[0].1) {
        assert ([rec[0]] + tail)[1..] == tail;
      } else {
        SubsequenceSkip(tail, rec);
      }
    }
  }

  lemma {:induction false} SubsequenceSkip<T>(sub: seq<T>, s: seq<T>)
    requires |s| > 0 && IsSubsequence(sub, s[1..])
    ensures IsSubsequence(sub, s)
    decreases |s|, |sub|
  {
    if |sub| > 0 && sub[0] == s[0] {
      SubsequenceDropHead(sub, s[1..]);
    }
  }

  lemma {:induction false} SubsequenceDropHead<T>(sub: seq<T>, s: seq<T>)
    requires |sub| > 0 && IsSubsequence(sub, s)
    ensures IsSubsequence(sub[1..], s)
    decreases |s|, |sub|
  {
    if sub[0] == s[0] {
      if |sub| > 1 {
        SubsequenceSkip(sub[1..], s);
      }
    } else {
      SubsequenceDropHead(sub, s[1..]);
      if |sub| > 1 {
        SubsequenceSkip(sub[1..], s);
      }
    }
  }

  /** Cleaning a cleaned record changes nothing. */
  lemma {:induction false} RemoveEmptyFieldsIdempotent(rec: Record)
    ensures RemoveEmptyFields(RemoveEmptyFields(rec)) == RemoveEmptyFields(rec)
  {
    if |rec| > 0 {
      RemoveEmptyFieldsIdempotent(rec[1..]);
      if !IsEmptyValue(rec[0].1) {
        assert ([rec[0]] + RemoveEmptyFields(rec[1..]))[1..] == RemoveEmptyFields(rec[1..]);
      }
    }
  }

  /** Cleaning works entry by entry: it distributes over concatenation. */
  lemma {:induction false} RemoveEmptyFieldsConcat(a: Record, b: Record)
    ensures RemoveEmptyFields(a + b) == RemoveEmptyFields(a) + RemoveEmptyFields(b)
  {
    if |a| > 0 {
      assert (a + b)[0] == a[0];
      assert (a + b)[1..] == a[1..] + b;
      RemoveEmptyFieldsConcat(a[1..], b);
      if IsEmptyValue(a[0].1) {
        assert RemoveEmptyFields(a + b) == RemoveEmptyFields(a[1..] + b);
      } else {
        assert RemoveEmptyFields(a + b) == [a[0]] + RemoveEmptyFields(a[1..] + b);
      }
    } else {
      assert a + b == b;
    }
  }

  /** On an object (distinct keys) a key survives cleaning exactly when its value is not empty,
      and then with the same value. */
  lemma {:induction false} RemoveEmptyFieldsLookup(rec: Record, k: string)
    requires DistinctKeys(rec)
    ensures Lookup(RemoveEmptyFields(rec), k) ==
            (if Lookup(rec, k).Some? && !IsEmptyValue(Lookup(rec, k).value) then Lookup(rec, k) else None)
  {
    if |rec| > 0 {
      assert DistinctKeys(rec[1..]) by {
        forall i, j | 0 <= i < j < |rec| - 1 ensures rec[1..][i].0 != rec[1..][j].0 {
          assert rec[1..][i] == rec[i + 1] && rec[1..][j] == rec[j + 1];
        }
      }
      RemoveEmptyFieldsLookup(rec[1..], k);
      if rec[0].0 == k {
        assert Lookup(rec[1..], k).None? by {
          forall i | 0 <= i < |rec| - 1 ensures Keys(rec[1..])[i] != k {
            assert rec[1..][i] == rec[i + 1];
          }
        }
      }
    }
  }

  // ---------------------------------------------------------------------------
  // Projection of one asset for display

  /** The ten keys of the display record, in output order. */
  const DisplayKeys: seq<string> :=
    ["id", "name", "type", "region", "status", "endpoints", "account_id", "cloud_id", "first_discovered", "link"]

  /** The display record before cleaning: name, type, status and account id fall back to the
      legacy field when the primary one is absent or empty (`||`). */
  function Projection(a: CloudAsset): Record {
    [ ("id", Str(a.id)),
      ("name", OptionalValue(OrElse(a.resourceName, a.name))),
      ("type", OptionalValue(SimplifyResourceType(OrElse(a.resourceType, a.legacyType)))),
      ("region", OptionalValue(a.region)),
      ("status", OptionalValue(OrElse(a.collectStatus, a.status))),
      ("endpoints", OptionalValue(a.endpoints)),
      ("account_id", OptionalValue(OrElse(a.cloudAccountId, a.accountId))),
      ("cloud_id", OptionalValue(a.cloudId)),
      ("first_discovered", OptionalValue(a.firstDiscovered)),
      ("link", OptionalValue(a.link)) ]
  }

  /** What a display field shows for an optional string: nothing when absent or an empty marker. */
  function Shown(o: Option<string>): Option<Value> {
    if o.Some? && !IsEmptyValue(Str(o.value)) then Some(Str(o.value)) else None
  }

  lemma DisplayKeysDistinct()
    ensures DistinctSeq(DisplayKeys)
  {
  }

  lemma ProjectionKeys(a: CloudAsset)
    ensures Keys(Projection(a)) == DisplayKeys
    ensures DistinctKeys(Projection(a))
  {
    DisplayKeysDistinct();
    var p := Projection(a);
    assert |Keys(p)| == |DisplayKeys|;
    forall i | 0 <= i < |p| ensures Keys(p)[i] == DisplayKeys[i] {
    }
    forall i, j | 0 <= i < j < |p| ensures p[i].0 != p[j].0 {
      assert Keys(p)[i] == DisplayKeys[i] && Keys(p)[j] == DisplayKeys[j];
    }
  }

  lemma ProjectionValues(a: CloudAsset, i: int)
    requires 0 <= i < |Projection(a)|
    ensures Projection(a)[i].1.Str? || Projection(a)[i].1.Undefined?
  {
    var p := Projection(a);
    if i == 0 {
    } else {
      var o :| p[i].1 == OptionalValue(o);
    }
  }

  /** `transformAssetForOutput` */
  function TransformAsset(a: CloudAsset): (r: Record)
    ensures IsSubsequence(Keys(r), DisplayKeys)
    ensures DistinctKeys(r)
    ensures forall e :: e in r ==> e.1.Str? && !IsEmptyValue(e.1)
  {
    var p := Projection(a);
    var r := RemoveEmptyFields(p);
    assert IsSubsequence(Keys(r), DisplayKeys) && DistinctKeys(r) by {
      ProjectionKeys(a);
      RemoveEmptyFieldsSubsequence(p);
      SubsequenceKeys(r, p);
      DisplayKeysDistinct();
      SubsequenceDistinct(Keys(r), DisplayKeys);
      forall i, j | 0 <= i < j < |r| ensures Keys(r)[i] != Keys(r)[j] {
        assert Keys(r)[i] == r[i].0 && Keys(r)[j] == r[j].0;
      }
    }
    assert forall e :: e in r ==> e.1.Str? && !IsEmptyValue(e.1) by {
      forall e | e in r ensures e.1.Str? {
        var i :| 0 <= i < |p| && p[i] == e;
        ProjectionValues(a, i);
      }
    }
    r
  }

  lemma {:induction false} SubsequenceKeys(sub: Record, s: Record)
    requires IsSubsequence(sub, s)
    ensures IsSubsequence(Keys(sub), Keys(s))
    decreases |s|
  {
    if |sub| > 0 {
      assert Keys(sub)[1..] == Keys(sub[1..]);
      assert Keys(s)[1..] == Keys(s[1..]);
      if sub[0] == s[0] {
        SubsequenceKeys(sub[1..], s[1..]);
      } else {
        SubsequenceKeys(sub, s[1..]);
        SubsequenceSkip(Keys(sub), Keys(s));
      }
    }
  }

  lemma {:induction false} SubsequenceDistinct(sub: seq<string>, s: seq<string>)
    requires IsSubsequence(sub, s) && DistinctSeq(s)
    ensures DistinctSeq(sub)
    ensures forall x :: x in sub ==> x in s
    decreases |s|
  {
    if |sub| > 0 {
      assert DistinctSeq(s[1..]) by {
        forall i, j | 0 <= i < j < |s| - 1 ensures s[1..][i] != s[1..][j] {
          assert s[1..][i] == s[i + 1] && s[1..][j] == s[j + 1];
        }
      }
      if sub[0] == s[0] {
        SubsequenceDistinct(sub[1..], s[1..]);
        forall i | 0 < i < |sub| ensures sub[i] != sub[0] {
          assert sub[1..][i - 1] == sub[i];
          assert sub[i] in s[1..];
          var j :| 0 <= j < |s| - 1 && s[1..][j] == sub[i];
          assert s[j + 1] == sub[i];
        }
        forall x | x in sub ensures x in s {
          if x != sub[0] {
            var i :| 0 <= i < |sub| && sub[i] == x;
            assert sub[1..][i - 1] == x;
            assert x in s[1..];
          }
        }
      } else {
        SubsequenceDistinct(sub, s[1..]);
      }
    }
  }

  /** In a cleaned object, the `i`-th entry's key shows its value unless the value is empty. */
  lemma CleanedEntry(p: Record, i: int)
    requires DistinctKeys(p) && 0 <= i < |p|
    ensures Lookup(RemoveEmptyFields(p), p[i].0) == (if IsEmptyValue(p[i].1) then None else Some(p[i].1))
  {
    LookupAt(p, i);
    RemoveEmptyFieldsLookup(p, p[i].0);
  }

  lemma CleanedOptional(p: Record, i: int, o: Option<string>)
    requires DistinctKeys(p) && 0 <= i < |p| && p[i].1 == OptionalValue(o)
    ensures Lookup(RemoveEmptyFields(p), p[i].0) == Shown(o)
  {
    CleanedEntry(p, i);
  }

  /** The four fields with a legacy fallback: each shows the primary field when it is truthy and
      the legacy field otherwise, and is missing when the chosen value is absent or an empty marker. */
  lemma TransformAssetFallbackFields(a: CloudAsset)
    ensures var r := TransformAsset(a);
      && Lookup(r, "name") == Shown(OrElse(a.resourceName, a.name))
      && Lookup(r, "type") == Shown(SimplifyResourceType(OrElse(a.resourceType, a.legacyType)))
      && Lookup(r, "status") == Shown(OrElse(a.collectStatus, a.status))
      && Lookup(r, "account_id") == Shown(OrElse(a.cloudAccountId, a.accountId))
  {
    var p := Projection(a);
    ProjectionKeys(a);
    CleanedOptional(p, 1, OrElse(a.resourceName, a.name));
    CleanedOptional(p, 2, SimplifyResourceType(OrElse(a.resourceType, a.legacyType)));
    CleanedOptional(p, 4, OrElse(a.collectStatus, a.status));
    CleanedOptional(p, 6, OrElse(a.cloudAccountId, a.accountId));
  }

  /** The six fields copied as they are, including `id`: an id that is "", "N/A" or "unknown"
      is dropped like any other empty value. */
  lemma TransformAssetDirectFields(a: CloudAsset)
    ensures var r := TransformAsset(a);
      && Lookup(r, "id") == Shown(Some(a.id))
      && Lookup(r, "region") == Shown(a.region)
      && Lookup(r, "endpoints") == Shown(a.endpoints)
      && Lookup(r, "cloud_id") == Shown(a.cloudId)
      && Lookup(r, "first_discovered") == Shown(a.firstDiscovered)
      && Lookup(r, "link") == Shown(a.link)
  {
    LeadingDirectFields(a);
    TrailingDirectFields(a);
  }

  lemma LeadingDirectFields(a: CloudAsset)
    ensures var r := TransformAsset(a);
      && Lookup(r, "id") == Shown(Some(a.id))
      && Lookup(r, "region") == Shown(a.region)
      && Lookup(r, "endpoints") == Shown(a.endpoints)
  {
    var p := Projection(a);
    ProjectionKeys(a);
    CleanedOptional(p, 0, Some(a.id));
    CleanedOptional(p, 3, a.region);
    CleanedOptional(p, 5, a.endpoints);
  }

  lemma TrailingDirectFields(a: CloudAsset)
    ensures var r := TransformAsset(a);
      && Lookup(r, "cloud_id") == Shown(a.cloudId)
      && Lookup(r, "first_discovered") == Shown(a.firstDiscovered)
      && Lookup(r, "link") == Shown(a.link)
  {
    var p := Projection(a);
    ProjectionKeys(a);
    CleanedOptional(p, 7, a.cloudId);
    CleanedOptional(p, 8, a.firstDiscovered);
    CleanedOptional(p, 9, a.link);
  }


  /** A resource name that is an empty marker still wins `||` and then hides the legacy name. */
  lemma PlaceholderNameHidesLegacyName(a: CloudAsset)
    requires a.resourceName == Some("N/A") && a.name.Some?
    ensures Lookup(TransformAsset(a), "name").None?
  {
    TransformAssetFallbackFields(a);
  }

  /** An absent or empty resource name falls back to the legacy name. */
  lemma LegacyNameFallback(a: CloudAsset, n: string)
    requires !Truthy(a.resourceName) && a.name == Some(n) && !IsEmptyValue(Str(n))
    ensures Lookup(TransformAsset(a), "name") == Some(Str(n))
  {
    TransformAssetFallbackFields(a);
  }

  /** The projection reads none of the fields outside the display set: provider, tags,
      additional data, connectors, timestamps and metadata do not change it. */
  lemma TransformIgnoresOtherFields(a: CloudAsset, b: CloudAsset)
    requires a.id == b.id && a.cloudAccountId == b.cloudAccountId && a.cloudId == b.cloudId
    requires a.collectStatus == b.collectStatus && a.endpoints == b.endpoints && a.region == b.region
    requires a.resourceName == b.resourceName && a.resourceType == b.resourceType && a.accountId == b.accountId
    requires a.firstDiscovered == b.firstDiscovered && a.link == b.link
    requires a.name == b.name && a.legacyType == b.legacyType && a.status == b.status
    ensures TransformAsset(a) == TransformAsset(b)
  {
    assert Projection(a) == Projection(b);
  }

  // ---------------------------------------------------------------------------
  // Grouping by provider

  /** The bucket an asset lands in: its simplified provider, or "Unknown" when the raw
      provider is absent or empty. A raw provider no rule recognises keeps its own name. */
  function ProviderKey(a: CloudAsset): (k: string)
    ensures k != ""
    ensures !Truthy(a.provider) ==> k == "Unknown"
    ensures Truthy(a.provider) ==> k == SimplifyProvider(a.provider).value
  {
    var p := SimplifyProvider(a.provider);
    if Truthy(p) then p.value else "Unknown"
  }

  /** The records of one provider, in input order. */
  datatype Bucket<T> = Bucket(provider: string, assets: seq<T>)

  function Providers<T>(bs: seq<Bucket<T>>): (ps: seq<string>)
    ensures |ps| == |bs|
    ensures forall i :: 0 <= i < |bs| ==> ps[i] == bs[i].provider
  {
    seq(|bs|, i requires 0 <= i < |bs| => bs[i].provider)
  }

  /** Index of the first bucket of provider `k`, or `|bs|` when there is none. */
  function BucketIndex<T>(bs: seq<Bucket<T>>, k: string): (j: nat)
    ensures j <= |bs|
    ensures j < |bs| ==> bs[j].provider == k
    ensures forall i :: 0 <= i < j ==> bs[i].provider != k
  {
    if |bs| == 0 then 0 else if bs[0].provider == k then 0 else 1 + BucketIndex(bs[1..], k)
  }

  /** One step of the grouping loop: push onto the provider's bucket, opening it if needed. */
  function AddToBucket<T>(bs: seq<Bucket<T>>, k: string, x: T): seq<Bucket<T>> {
    var j := BucketIndex(bs, k);
    if j < |bs| then bs[j := Bucket(k, bs[j].assets + [x])] else bs + [Bucket(k, [x])]
  }

  /** Groups keyed items by scanning them in order. */
  function GroupByKey<T>(items: seq<(string, T)>): seq<Bucket<T>> {
    if |items| == 0 then []
    else
      var last := items[|items| - 1];
      AddToBucket(GroupByKey(items[..|items| - 1]), last.0, last.1)
  }

  /** The distinct elements of `ks` in the order of their first occurrence. */
  function FirstEncounter(ks: seq<string>): seq<string> {
    if |ks| == 0 then []
    else
      var prev := FirstEncounter(ks[..|ks| - 1]);
      if ks[|ks| - 1] in prev then prev else prev + [ks[|ks| - 1]]
  }

  /** Position of the first occurrence of `x` in `ks`. */
  function FirstIndex(ks: seq<string>, x: string): (i: nat)
    requires x in ks
    ensures i < |ks| && ks[i] == x
    ensures forall j :: 0 <= j < i ==> ks[j] != x
  {
    if ks[0] == x then 0 else 1 + FirstIndex(ks[1..], x)
  }

  lemma FirstIndexSnoc(ks: seq<string>, y: string, x: string)
    requires x in ks
    ensures FirstIndex(ks + [y], x) == FirstIndex(ks, x)
  {
    var i := FirstIndex(ks, x);
    assert (ks + [y])[i] == x;
    forall m | 0 <= m < i ensures (ks + [y])[m] != x {
      assert (ks + [y])[m] == ks[m];
    }
  }

  /** `FirstEncounter` lists each distinct key once, ordered by where it first occurs. */
  lemma {:induction false} FirstEncounterSpec(ks: seq<string>)
    ensures DistinctSeq(FirstEncounter(ks))
    ensures forall x :: x in FirstEncounter(ks) <==> x in ks
    ensures forall i, j :: 0 <= i < j < |FirstEncounter(ks)| ==>
              FirstIndex(ks, FirstEncounter(ks)[i]) < FirstIndex(ks, FirstEncounter(ks)[j])
  {
    if |ks| > 0 {
      var pre := ks[..|ks| - 1];
      var y := ks[|ks| - 1];
      assert ks == pre + [y];
      FirstEncounterSpec(pre);
      var f := FirstEncounter(pre);
      forall x | x in f ensures FirstIndex(ks, x) == FirstIndex(pre, x) {
        FirstIndexSnoc(pre, y, x);
      }
      if y !in f {
        var g := f + [y];
        forall i, j | 0 <= i < j < |g| ensures FirstIndex(ks, g[i]) < FirstIndex(ks, g[j]) {
          if j == |f| {
            assert g[i] == f[i];
            assert FirstIndex(ks, y) == |pre| by {
              forall m | 0 <= m < |pre| ensures ks[m] != y {
                assert ks[m] == pre[m];
              }
            }
          } else {
            assert g[i] == f[i] && g[j] == f[j];
          }
        }
      }
    }
  }

  /** The items whose key is `k`, in input order. */
  function Members<T>(items: seq<(string, T)>, k: string): seq<T> {
    if |items| == 0 then []
    else
      var last := items[|items| - 1];
      Members(items[..|items| - 1], k) + (if last.0 == k then [last.1] else [])
  }

  lemma {:induction false} MembersOfAbsentKey<T>(items: seq<(string, T)>, k: string)
    requires k !in Keys(items)
    ensures Members(items, k) == []
  {
    if |items| > 0 {
      var pre := items[..|items| - 1];
      assert Keys(pre) == Keys(items)[..|items| - 1];
      MembersOfAbsentKey(pre, k);
    }
  }

  lemma {:induction false} MembersOfPresentKey<T>(items: seq<(string, T)>, k: string)
    requires k in Keys(items)
    ensures |Members(items, k)| > 0
  {
    var pre := items[..|items| - 1];
    if items[|items| - 1].0 != k {
      assert Keys(pre) == Keys(items)[..|items| - 1];
      MembersOfPresentKey(pre, k);
    }
  }

  /** The grouping loop agrees with the reference: the buckets are the distinct keys in
      first-encounter order, and each bucket holds exactly that key's items in input order. */
  lemma {:induction false} GroupByKeySpec<T>(items: seq<(string, T)>)
    ensures Providers(GroupByKey(items)) == FirstEncounter(Keys(items))
    ensures forall i :: 0 <= i < |GroupByKey(items)| ==>
              GroupByKey(items)[i].assets == Members(items, GroupByKey(items)[i].provider)
  {
    if |items| > 0 {
      var pre := items[..|items| - 1];
      GroupByKeySpec(pre);
      FirstEncounterSpec(Keys(pre));
      if BucketIndex(GroupByKey(pre), items[|items| - 1].0) < |GroupByKey(pre)| {
        GroupStepExisting(items);
      } else {
        GroupStepNew(items);
      }
    }
  }

  lemma GroupStepExisting<T>(items: seq<(string, T)>)
    requires |items| > 0
    requires var pre := items[..|items| - 1];
      && Providers(GroupByKey(pre)) == FirstEncounter(Keys(pre))
      && DistinctSeq(FirstEncounter(Keys(pre)))
      && (forall i :: 0 <= i < |GroupByKey(pre)| ==>
            GroupByKey(pre)[i].assets == Members(pre, GroupByKey(pre)[i].provider))
      && BucketIndex(GroupByKey(pre), items[|items| - 1].0) < |GroupByKey(pre)|
    ensures Providers(GroupByKey(items)) == FirstEncounter(Keys(items))
    ensures forall i :: 0 <= i < |GroupByKey(items)| ==>
              GroupByKey(items)[i].assets == Members(items, GroupByKey(items)[i].provider)
  {
    var pre := items[..|items| - 1];
    var last := items[|items| - 1];
    var k := last.0;
    var g := GroupByKey(pre);
    var j := BucketIndex(g, k);
    var G := GroupByKey(items);
    assert G == g[j := Bucket(k, g[j].assets + [last.1])];
    var ks := Keys(items);
    assert ks[..|items| - 1] == Keys(pre);
    assert ks[|items| - 1] == k;
    assert k in FirstEncounter(Keys(pre)) by {
      assert Providers(g)[j] == k;
    }
    assert FirstEncounter(ks) == FirstEncounter(Keys(pre));
    assert Providers(G) == Providers(g);
    forall i | 0 <= i < |G| ensures G[i].assets == Members(items, G[i].provider) {
      if i != j {
        assert Providers(g)[i] != Providers(g)[j];
      }
    }
  }

  lemma GroupStepNew<T>(items: seq<(string, T)>)
    requires |items| > 0
    requires var pre := items[..|items| - 1];
      && Providers(GroupByKey(pre)) == FirstEncounter(Keys(pre))
      && (forall x :: x in FirstEncounter(Keys(pre)) <==> x in Keys(pre))
      && (forall i :: 0 <= i < |GroupByKey(pre)| ==>
            GroupByKey(pre)[i].assets == Members(pre, GroupByKey(pre)[i].provider))
      && BucketIndex(GroupByKey(pre), items[|items| - 1].0) == |GroupByKey(pre)|
    ensures Providers(GroupByKey(items)) == FirstEncounter(Keys(items))
    ensures forall i :: 0 <= i < |GroupByKey(items)| ==>
              GroupByKey(items)[i].assets == Members(items, GroupByKey(items)[i].provider)
  {
    var pre := items[..|items| - 1];
    var last := items[|items| - 1];
    var k := last.0;
    var g := GroupByKey(pre);
    var G := GroupByKey(items);
    assert G == g + [Bucket(k, [last.1])];
    var ks := Keys(items);
    assert ks[..|items| - 1] == Keys(pre);
    assert ks[|items| - 1] == k;
    assert k !in Providers(g);
    MembersOfAbsentKey(pre, k);
    assert FirstEncounter(ks) == FirstEncounter(Keys(pre)) + [k];
    assert Providers(G) == Providers(g) + [k];
    forall i | 0 <= i < |G| ensures G[i].assets == Members(items, G[i].provider) {
      if i < |g| {
        assert G[i] == g[i];
        assert g[i].provider != k by {
          assert Providers(g)[i] == g[i].provider;
        }
      }
    }
  }

  function Total<T>(bs: seq<Bucket<T>>): nat {
    if |bs| == 0 then 0 else |bs[0].assets| + Total(bs[1..])
  }

  lemma {:induction false} TotalUpdate<T>(bs: seq<Bucket<T>>, j: int, b: Bucket<T>)
    requires 0 <= j < |bs|
    ensures Total(bs[j := b]) == Total(bs) - |bs[j].assets| + |b.assets|
  {
    if j > 0 {
      assert bs[j := b][1..] == bs[1..][j - 1 := b];
      TotalUpdate(bs[1..], j - 1, b);
    }
  }

  lemma {:induction false} TotalSnoc<T>(bs: seq<Bucket<T>>, b: Bucket<T>)
    ensures Total(bs + [b]) == Total(bs) + |b.assets|
  {
    if |bs| > 0 {
      assert (bs + [b])[1..] == bs[1..] + [b];
      TotalSnoc(bs[1..], b);
    }
  }

  /** Every item lands in exactly one bucket: the buckets' keys are distinct, every item's key
      has a bucket, no bucket is empty, and the bucket sizes add up to the number of items. */
  lemma {:induction false} GroupByKeyPartition<T>(items: seq<(string, T)>)
    ensures DistinctSeq(Providers(GroupByKey(items)))
    ensures forall i :: 0 <= i < |items| ==> items[i].0 in Providers(GroupByKey(items))
    ensures forall i :: 0 <= i < |GroupByKey(items)| ==> |GroupByKey(items)[i].assets| > 0
    ensures Total(GroupByKey(items)) == |items|
  {
    var G := GroupByKey(items);
    var ks := Keys(items);
    GroupByKeySpec(items);
    FirstEncounterSpec(ks);
    forall i | 0 <= i < |items| ensures items[i].0 in Providers(G) {
      assert ks[i] == items[i].0;
    }
    forall i | 0 <= i < |G| ensures |G[i].assets| > 0 {
      assert Providers(G)[i] in ks;
      MembersOfPresentKey(items, G[i].provider);
    }
    if |items| > 0 {
      var pre := items[..|items| - 1];
      var last := items[|items| - 1];
      GroupByKeyPartition(pre);
      var g := GroupByKey(pre);
      var j := BucketIndex(g, last.0);
      if j < |g| {
        TotalUpdate(g, j, Bucket(last.0, g[j].assets + [last.1]));
      } else {
        TotalSnoc(g, Bucket(last.0, [last.1]));
      }
    }
  }

  function ProviderKeys(assets: seq<CloudAsset>): (ks: seq<string>)
    ensures |ks| == |assets|
    ensures forall i :: 0 <= i < |assets| ==> ks[i] == ProviderKey(assets[i])
  {
    seq(|assets|, i requires 0 <= i < |assets| => ProviderKey(assets[i]))
  }

  /** Each asset paired with its bucket key and its display record. */
  function Tagged(assets: seq<CloudAsset>): (items: seq<(string, Record)>)
    ensures |items| == |assets|
    ensures forall i :: 0 <= i < |assets| ==> items[i] == (ProviderKey(assets[i]), TransformAsset(assets[i]))
  {
    seq(|assets|, i requires 0 <= i < |assets| => (ProviderKey(assets[i]), TransformAsset(assets[i])))
  }

  /** The buckets of `formatAssetsAsYAML`. */
  function GroupByProvider(assets: seq<CloudAsset>): (G: seq<Bucket<Record>>)
    ensures DistinctSeq(Providers(G))
    ensures forall i :: 0 <= i < |G| ==> |G[i].assets| > 0
    ensures Total(G) == |assets|
  {
    GroupByKeyPartition(Tagged(assets));
    GroupByKey(Tagged(assets))
  }

  /** Provider-level reading of the grouping: buckets appear in first-encounter order of the
      provider keys, each holds that provider's display records in input order, every asset
      lands in exactly one bucket, and no bucket is empty. */
  lemma GroupByProviderSpec(assets: seq<CloudAsset>)
    ensures var G := GroupByProvider(assets);
      && Providers(G) == FirstEncounter(ProviderKeys(assets))
      && (forall i :: 0 <= i < |G| ==> G[i].assets == Members(Tagged(assets), G[i].provider))
      && DistinctSeq(Providers(G))
      && (forall i :: 0 <= i < |assets| ==> ProviderKey(assets[i]) in Providers(G))
      && (forall i :: 0 <= i < |G| ==> |G[i].assets| > 0)
      && Total(G) == |assets|
  {
    var items := Tagged(assets);
    assert Keys(items) == ProviderKeys(assets);
    GroupByKeySpec(items);
    GroupByKeyPartition(items);
  }

  // ---------------------------------------------------------------------------
  // Summary and document handed to the YAML renderer

  /** `<provider lowercased>_count` entries, one per bucket in bucket order. */
  function CountEntries(bs: seq<Bucket<Record>>): (r: Record)
    ensures |r| == |bs|
    ensures forall i :: 0 <= i < |bs| ==> r[i] == (Lower(bs[i].provider) + "_count", Num(|bs[i].assets|))
  {
    seq(|bs|, i requires 0 <= i < |bs| => (Lower(bs[i].provider) + "_count", Num(|bs[i].assets|)))
  }

  function RecordsValue(rs: seq<Record>): Value {
    Arr(seq(|rs|, j requires 0 <= j < |rs| => Obj(rs[j])))
  }

  /** `<provider lowercased>_assets` entries, one per bucket in bucket order. */
  function AssetEntries(bs: seq<Bucket<Record>>): (r: Record)
    ensures |r| == |bs|
    ensures forall i :: 0 <= i < |bs| ==> r[i] == (Lower(bs[i].provider) + "_assets", RecordsValue(bs[i].assets))
  {
    seq(|bs|, i requires 0 <= i < |bs| => (Lower(bs[i].provider) + "_assets", RecordsValue(bs[i].assets)))
  }

  /** The `summary` object: `total_assets` first, then the count entries assigned in bucket order,
      so that a later provider whose lower-cased name repeats an earlier one overwrites its count. */
  function Summary(assets: seq<CloudAsset>): (s: Record)
    ensures |s| > 0 && s[0] == ("total_assets", Num(|assets|))
  {
    var E := CountEntries(GroupByProvider(assets));
    CountKeysAreNotTotal(GroupByProvider(assets));
    PutAllKeepsHead([("total_assets", Num(|assets|))], E);
    PutAll([("total_assets", Num(|assets|))], E)
  }

  /** The object `formatAssetsAsYAML` hands to the YAML renderer. */
  function AssetsDocument(assets: seq<CloudAsset>): (d: Record)
    ensures |d| > 0 && d[0] == ("summary", Obj(Summary(assets)))
  {
    var E := AssetEntries(GroupByProvider(assets));
    AssetKeysAreNotSummary(GroupByProvider(assets));
    PutAllKeepsHead([("summary", Obj(Summary(assets)))], E);
    PutAll([("summary", Obj(Summary(assets)))], E)
  }

  lemma CountKeysAreNotTotal(bs: seq<Bucket<Record>>)
    ensures forall j :: 0 <= j < |bs| ==> CountEntries(bs)[j].0 != "total_assets"
  {
    forall j | 0 <= j < |bs| ensures CountEntries(bs)[j].0 != "total_assets" {
      CountKeyIsNotTotal(Lower(bs[j].provider));
    }
  }

  lemma AssetKeysAreNotSummary(bs: seq<Bucket<Record>>)
    ensures forall j :: 0 <= j < |bs| ==> AssetEntries(bs)[j].0 != "summary"
  {
    forall j | 0 <= j < |bs| ensures AssetEntries(bs)[j].0 != "summary" {
      AssetsKeyIsNotSummary(Lower(bs[j].provider));
    }
  }

  lemma SuffixCancel(x: string, y: string, s: string)
    requires x + s == y + s
    ensures x == y
  {
    assert |x| == |y|;
    assert x == (x + s)[..|x|];
  }

  lemma CountKeyIsNotTotal(x: string)
    ensures x + "_count" != "total_assets"
  {
    if |x + "_count"| == |"total_assets"| {
      assert (x + "_count")[|x| + 5] == 't';
    }
  }

  lemma AssetsKeyIsNotSummary(x: string)
    ensures x + "_assets" != "summary"
  {
    if |x + "_assets"| == |"summary"| {
      assert (x + "_assets")[0] == '_';
    }
  }

  lemma {:induction false} LastValueAt(entries: Record, m: int, k: string)
    requires 0 <= m < |entries| && entries[m].0 == k
    requires forall j :: m < j < |entries| ==> entries[j].0 != k
    ensures LastValue(entries, k) == Some(entries[m].1)
  {
    if m > 0 {
      LastValueAt(entries[1..], m - 1, k);
    } else {
      LastValueAbsent(entries[1..], k);
    }
  }

  lemma {:induction false} LastValueAbsent(entries: Record, k: string)
    requires forall j :: 0 <= j < |entries| ==> entries[j].0 != k
    ensures LastValue(entries, k).None?
  {
    if |entries| > 0 {
      LastValueAbsent(entries[1..], k);
    }
  }

  /** `total_assets` is the number of input assets. */
  lemma SummaryTotal(assets: seq<CloudAsset>)
    ensures Lookup(Summary(assets), "total_assets") == Some(Num(|assets|))
  {
    var E := CountEntries(GroupByProvider(assets));
    forall j | 0 <= j < |E| ensures E[j].0 != "total_assets" {
      CountKeyIsNotTotal(Lower(GroupByProvider(assets)[j].provider));
    }
    LastValueAbsent(E, "total_assets");
    PutAllLookup([("total_assets", Num(|assets|))], E, "total_assets");
  }

  /** A bucket's count entry holds its size unless a later bucket's provider lower-cases to the
      same name, in which case the later count overwrites it. */
  lemma SummaryCount(assets: seq<CloudAsset>, i: int)
    requires 0 <= i < |GroupByProvider(assets)|
    requires var G := GroupByProvider(assets);
      forall j :: i < j < |G| ==> Lower(G[j].provider) != Lower(G[i].provider)
    ensures var G := GroupByProvider(assets);
      Lookup(Summary(assets), Lower(G[i].provider) + "_count") == Some(Num(|G[i].assets|))
  {
    var G := GroupByProvider(assets);
    var E := CountEntries(G);
    var k := Lower(G[i].provider) + "_count";
    forall j | i < j < |E| ensures E[j].0 != k {
      if E[j].0 == k {
        SuffixCancel(Lower(G[j].provider), Lower(G[i].provider), "_count");
      }
    }
    LastValueAt(E, i, k);
    PutAllLookup([("total_assets", Num(|assets|))], E, k);
  }

  /** Providers whose bucket keys stay distinct after lower-casing. */
  predicate CaseDistinctProviders(assets: seq<CloudAsset>) {
    forall i, j :: 0 <= i < |assets| && 0 <= j < |assets| ==>
      (Lower(ProviderKey(assets[i])) == Lower(ProviderKey(assets[j])) ==> ProviderKey(assets[i]) == ProviderKey(assets[j]))
  }

  function SumCounts(r: Record): int {
    if |r| == 0 then 0 else (if r[0].1.Num? then r[0].1.n else 0) + SumCounts(r[1..])
  }

  lemma {:induction false} SumCountsOfBuckets(bs: seq<Bucket<Record>>)
    ensures SumCounts(CountEntries(bs)) == Total(bs)
  {
    if |bs| > 0 {
      assert CountEntries(bs)[1..] == CountEntries(bs[1..]);
      SumCountsOfBuckets(bs[1..]);
    }
  }

  lemma BucketsCaseDistinct(assets: seq<CloudAsset>)
    requires CaseDistinctProviders(assets)
    ensures var G := GroupByProvider(assets);
      forall i, j :: 0 <= i < j < |G| ==> Lower(G[i].provider) != Lower(G[j].provider)
  {
    var G := GroupByProvider(assets);
    var ks := ProviderKeys(assets);
    var ps := Providers(G);
    assert ps == FirstEncounter(ks) && DistinctSeq(ps) by {
      GroupByProviderSpec(assets);
    }
    assert forall x :: x in ps ==> x in ks by {
      FirstEncounterSpec(ks);
    }
    forall i, j | 0 <= i < j < |G| ensures Lower(G[i].provider) != Lower(G[j].provider) {
      KeysCaseDistinct(assets, ps[i], ps[j]);
    }
  }

  /** Two different provider keys of case-distinct assets lower-case differently. */
  lemma KeysCaseDistinct(assets: seq<CloudAsset>, x: string, y: string)
    requires CaseDistinctProviders(assets)
    requires x in ProviderKeys(assets) && y in ProviderKeys(assets) && x != y
    ensures Lower(x) != Lower(y)
  {
    var ks := ProviderKeys(assets);
    var a :| 0 <= a < |assets| && ks[a] == x;
    var b :| 0 <= b < |assets| && ks[b] == y;
  }


  /** Assigning count entries with case-distinct providers after `total_assets` appends them. */
  lemma CountsAppend(bs: seq<Bucket<Record>>, total: int)
    requires forall i, j :: 0 <= i < j < |bs| ==> Lower(bs[i].provider) != Lower(bs[j].provider)
    ensures PutAll([("total_assets", Num(total))], CountEntries(bs)) == [("total_assets", Num(total))] + CountEntries(bs)
  {
    var E := CountEntries(bs);
    var r := [("total_assets", Num(total))] + E;
    forall i, j | 0 <= i < j < |r| ensures Keys(r)[i] != Keys(r)[j] {
      assert Keys(r)[j] == r[j].0 == E[j - 1].0;
      if i == 0 {
        assert Keys(r)[0] == "total_assets";
        CountKeyIsNotTotal(Lower(bs[j - 1].provider));
      } else if r[i].0 == r[j].0 {
        SuffixCancel(Lower(bs[i - 1].provider), Lower(bs[j - 1].provider), "_count");
      }
    }
    PutAllFresh([("total_assets", Num(total))], E);
  }

  /** With providers distinct after lower-casing, the summary is `total_assets` followed by one
      count per bucket in first-encounter order, and the counts add up to the total. */
  lemma SummaryWhenCaseDistinct(assets: seq<CloudAsset>)
    requires CaseDistinctProviders(assets)
    ensures var G := GroupByProvider(assets);
      && Summary(assets) == [("total_assets", Num(|assets|))] + CountEntries(G)
      && SumCounts(Summary(assets)[1..]) == |assets|
  {
    var G := GroupByProvider(assets);
    BucketsCaseDistinct(assets);
    CountsAppend(G, |assets|);
    assert Summary(assets)[1..] == CountEntries(G);
    SumCountsOfBuckets(G);
    assert Total(G) == |assets| by {
      GroupByProviderSpec(assets);
    }
  }

  /** With providers distinct after lower-casing, no `_assets` entry overwrites another, so they
      follow the summary in bucket order. */
  lemma AssetsAppend(bs: seq<Bucket<Record>>, head: Value)
    requires forall i, j :: 0 <= i < j < |bs| ==> Lower(bs[i].provider) != Lower(bs[j].provider)
    ensures PutAll([("summary", head)], AssetEntries(bs)) == [("summary", head)] + AssetEntries(bs)
  {
    var E := AssetEntries(bs);
    var r := [("summary", head)] + E;
    forall i, j | 0 <= i < j < |r| ensures Keys(r)[i] != Keys(r)[j] {
      assert Keys(r)[j] == r[j].0 == E[j - 1].0;
      if i == 0 {
        assert Keys(r)[0] == "summary";
        AssetsKeyIsNotSummary(Lower(bs[j - 1].provider));
      } else if r[i].0 == r[j].0 {
        SuffixCancel(Lower(bs[i - 1].provider), Lower(bs[j - 1].provider), "_assets");
      }
    }
    PutAllFresh([("summary", head)], E);
  }

  /** With providers distinct after lower-casing, the document is exactly the summary followed by
      one `<provider lowercased>_assets` entry per bucket, in first-encounter order. */
  lemma AssetsDocumentWhenCaseDistinct(assets: seq<CloudAsset>)
    requires CaseDistinctProviders(assets)
    ensures AssetsDocument(assets) == [("summary", Obj(Summary(assets)))] + AssetEntries(GroupByProvider(assets))
  {
    BucketsCaseDistinct(assets);
    AssetsAppend(GroupByProvider(assets), Obj(Summary(assets)));
  }

  /** The `_assets` entry of bucket `i` survives every later assignment. */
  lemma AssetEntryLookup(bs: seq<Bucket<Record>>, head: Value, i: int)
    requires 0 <= i < |bs|
    requires forall j :: i < j < |bs| ==> Lower(bs[j].provider) != Lower(bs[i].provider)
    ensures Lookup(PutAll([("summary", head)], AssetEntries(bs)), Lower(bs[i].provider) + "_assets")
            == Some(RecordsValue(bs[i].assets))
    ensures |PutAll([("summary", head)], AssetEntries(bs))| > 0
    ensures PutAll([("summary", head)], AssetEntries(bs))[0] == ("summary", head)
  {
    var E := AssetEntries(bs);
    var k := Lower(bs[i].provider) + "_assets";
    forall j | i < j < |E| ensures E[j].0 != k {
      if E[j].0 == k {
        SuffixCancel(Lower(bs[j].provider), Lower(bs[i].provider), "_assets");
      }
    }
    LastValueAt(E, i, k);
    PutAllLookup([("summary", head)], E, k);
    forall j | 0 <= j < |E| ensures E[j].0 != "summary" {
      AssetsKeyIsNotSummary(Lower(bs[j].provider));
    }
    PutAllKeepsHead([("summary", head)], E);
  }

  /** The document starts with the summary, and every bucket not overwritten by a later
      case-colliding provider is listed under `<provider lowercased>_assets`. */
  lemma AssetsDocumentContents(assets: seq<CloudAsset>, i: int)
    requires 0 <= i < |GroupByProvider(assets)|
    requires var G := GroupByProvider(assets);
      forall j :: i < j < |G| ==> Lower(G[j].provider) != Lower(G[i].provider)
    ensures |AssetsDocument(assets)| > 0 && AssetsDocument(assets)[0] == ("summary", Obj(Summary(assets)))
    ensures var G := GroupByProvider(assets);
      Lookup(AssetsDocument(assets), Lower(G[i].provider) + "_assets") == Some(RecordsValue(G[i].assets))
  {
    var G := GroupByProvider(assets);
    var head := Obj(Summary(assets));
    assert AssetsDocument(assets) == PutAll([("summary", head)], AssetEntries(G));
    AssetEntryLookup(G, head, i);
  }

  /** Two single-asset buckets whose providers lower-case alike leave one count, the second's. */
  lemma CollidingCounts(bs: seq<Bucket<Record>>, total: int)
    requires |bs| == 2 && |bs[0].assets| == 1 && |bs[1].assets| == 1
    requires Lower(bs[0].provider) == "x" && Lower(bs[1].provider) == "x"
    ensures PutAll([("total_assets", Num(total))], CountEntries(bs)) == [("total_assets", Num(total)), ("x_count", Num(1))]
  {
    assert "x" + "_count" == "x_count";
    var C := CountEntries(bs);
    var e := ("x_count", Num(1));
    assert C == [e, e] by { assert C[0] == e && C[1] == e; }
    PutSameKeyTwice(("total_assets", Num(total)), e, e);
  }

  /** Two buckets whose providers lower-case alike leave one asset list, the second's. */
  lemma CollidingAssetEntries(bs: seq<Bucket<Record>>, head: Value)
    requires |bs| == 2
    requires Lower(bs[0].provider) == "x" && Lower(bs[1].provider) == "x"
    ensures PutAll([("summary", head)], AssetEntries(bs)) == [("summary", head), ("x_assets", RecordsValue(bs[1].assets))]
  {
    assert "x" + "_assets" == "x_assets";
    var E := AssetEntries(bs);
    var e1, e2 := ("x_assets", RecordsValue(bs[0].assets)), ("x_assets", RecordsValue(bs[1].assets));
    assert E == [e1, e2] by { assert E[0] == e1 && E[1] == e2; }
    PutSameKeyTwice(("summary", head), e1, e2);
  }

  /** Writing two entries with one key into a single-entry object with another key leaves the
      second entry, appended once. */
  lemma PutSameKeyTwice(t: (string, Value), e1: (string, Value), e2: (string, Value))
    requires t.0 != e1.0 && e1.0 == e2.0
    ensures PutAll([t], [e1, e2]) == [t, e2]
  {
    PutNewKey(t, e1);
    PutSameKey(t, e1, e2);
    assert [e1, e2][1..] == [e2] && [e2][1..] == [];
    assert PutAll([t, e2], []) == [t, e2];
  }

  lemma PutNewKey(t: (string, Value), e: (string, Value))
    requires t.0 != e.0
    ensures Put([t], e.0, e.1) == [t, e]
  {
    assert Put([t][1..], e.0, e.1) == [e];
  }

  lemma PutSameKey(t: (string, Value), e1: (string, Value), e2: (string, Value))
    requires t.0 != e1.0 && e1.0 == e2.0
    ensures Put([t, e1], e2.0, e2.1) == [t, e2]
  {
    assert [t, e1][1..] == [e1] && [e1][1..] == [];
    assert Put([e1], e2.0, e2.1) == [e2];
  }

  /** Providers that differ only in case get separate buckets but share one summary key and one
      document key: the later bucket's count and records replace the earlier one's, so the
      counts no longer add up to `total_assets` and the earlier assets are missing from the
      document. */
  lemma CaseCollidingProviders(a: CloudAsset, b: CloudAsset)
    requires a.provider == Some("X") && b.provider == Some("x")
    ensures GroupByProvider([a, b]) == [Bucket("X", [TransformAsset(a)]), Bucket("x", [TransformAsset(b)])]
    ensures Summary([a, b]) == [("total_assets", Num(2)), ("x_count", Num(1))]
    ensures AssetsDocument([a, b]) ==
      [("summary", Obj(Summary([a, b]))), ("x_assets", RecordsValue([TransformAsset(b)]))]
  {
    var G := GroupByProvider([a, b]);
    CollidingGroups(a, b);
    assert Lower("X") == "x" && Lower("x") == "x";
    CollidingCounts(G, 2);
    CollidingAssetEntries(G, Obj(Summary([a, b])));
  }

  /** Providers "X" and "x" are not recognised vendors, so each keeps its own bucket. */
  lemma CollidingGroups(a: CloudAsset, b: CloudAsset)
    requires a.provider == Some("X") && b.provider == Some("x")
    ensures GroupByProvider([a, b]) == [Bucket("X", [TransformAsset(a)]), Bucket("x", [TransformAsset(b)])]
  {
    ShortProviderKey(a);
    ShortProviderKey(b);
    var t := Tagged([a, b]);
    PairElements(t);
    GroupTwo(t[0].0, t[0].1, t[1].0, t[1].1);
  }

  lemma PairElements<T>(t: seq<T>)
    requires |t| == 2
    ensures t == [t[0], t[1]]
  {
  }

  /** A one-letter provider name contains no vendor name, so it is its own grouping key. */
  lemma ShortProviderKey(a: CloudAsset)
    requires a.provider.Some? && |a.provider.value| == 1
    ensures ProviderKey(a) == a.provider.value
  {
    var p := a.provider.value;
    assert |Lower(p)| == 1;
    assert !Includes(Lower(p), "aws") && !Includes(Lower(p), "azure");
    assert !Includes(p, "GCP") && !Includes(Lower(p), "google");
  }

  /** Two items with different keys form two single-item buckets, in input order. */
  lemma GroupTwo(k1: string, x: Record, k2: string, y: Record)
    requires k1 != k2
    ensures GroupByKey([(k1, x), (k2, y)]) == [Bucket(k1, [x]), Bucket(k2, [y])]
  {
    var items := [(k1, x), (k2, y)];
    assert items[..1] == [(k1, x)];
    assert GroupByKey([(k1, x)]) == [Bucket(k1, [x])];
    assert BucketIndex([Bucket(k1, [x])], k2) == 1;
  }

  lemma {:induction false} PutAllKeepsHead(r: Record, entries: Record)
    requires |r| > 0
    requires forall j :: 0 <= j < |entries| ==> entries[j].0 != r[0].0
    ensures |PutAll(r, entries)| > 0 && PutAll(r, entries)[0] == r[0]
    decreases |entries|
  {
    if |entries| > 0 {
      var r' := Put(r, entries[0].0, entries[0].1);
      assert r'[0] == r[0];
      PutAllKeepsHead(r', entries[1..]);
    }
  }
}
