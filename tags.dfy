/**
 * `dict(t.split('=') for t in entries)`: the tag parsing of the compute and
 * database `create` commands, and the insertion-ordered dictionary it builds.
 */
module Tags {
  import opened Wrappers
  import opened Text
  import opened Aws

  /** A Python dict of strings: keys in insertion order, and their current values. */
  datatype Dict = Dict(keys: seq<string>, values: map<string, string>)

  ghost predicate Valid(d: Dict) {
    && (forall i, j :: 0 <= i < j < |d.keys| ==> d.keys[i] != d.keys[j])
    && (forall k :: k in d.values <==> k in d.keys)
  }

  const Empty: Dict := Dict([], map[])

  /** `d[k] = v`: a new key goes last, an existing key keeps its place and takes the new value. */
  function Put(d: Dict, k: string, v: string): (r: Dict)
    requires Valid(d)
    ensures Valid(r)
    ensures k in r.values && r.values[k] == v
    ensures forall k' :: k' != k ==> (k' in r.values <==> k' in d.values)
    ensures forall k' :: k' != k && k' in d.values ==> r.values[k'] == d.values[k']
    ensures k in d.values ==> r.keys == d.keys
    ensures k !in d.values ==> r.keys == d.keys + [k]
  {
    Dict(if k in d.values then d.keys else d.keys + [k], d.values[k := v])
  }

  /** `d.items()` as (key, value) pairs, in insertion order. */
  function Items(d: Dict): (r: seq<(string, string)>)
    requires Valid(d)
    ensures |r| == |d.keys|
    ensures forall i :: 0 <= i < |r| ==> r[i].0 == d.keys[i] && r[i].0 in d.values && r[i].1 == d.values[r[i].0]
  {
    seq(|d.keys|, i requires 0 <= i < |d.keys| => (d.keys[i], d.values[d.keys[i]]))
  }

  /** `[{'Key': key, 'Value': val} for (key, val) in d.items()]`. */
  function TagList(d: Dict): (r: seq<Tag>)
    requires Valid(d)
    ensures |r| == |d.keys|
    ensures forall i :: 0 <= i < |r| ==> r[i].key == d.keys[i] && r[i].key in d.values && r[i].value == d.values[r[i].key]
  {
    var items := Items(d);
    seq(|items|, i requires 0 <= i < |items| => Tag(items[i].0, items[i].1))
  }

  /** Every key of the dict gives one `{Key, Value}` entry carrying its current value. */
  lemma TagListHas(d: Dict, k: string)
    requires Valid(d) && k in d.values
    ensures Tag(k, d.values[k]) in TagList(d)
  {
    var i :| 0 <= i < |d.keys| && d.keys[i] == k;
    assert TagList(d)[i] == Tag(k, d.values[k]);
  }

  /** Writing a new key adds its entry after all the others and leaves them as they were. */
  lemma TagListPutNew(d: Dict, k: string, v: string)
    requires Valid(d) && k !in d.values
    ensures TagList(Put(d, k, v)) == TagList(d) + [Tag(k, v)]
  {
    var r := Put(d, k, v);
    var before := TagList(d);
    var after := TagList(r);
    assert r.keys == d.keys + [k];
    forall i | 0 <= i < |before| ensures after[i] == before[i] {
      assert r.keys[i] == d.keys[i] && d.keys[i] in d.values;
    }
    assert after[|before|] == Tag(k, v);
  }

  /** `dict(pairs)`: every pair written in turn, so later pairs overwrite earlier ones. */
  function FromPairs(pairs: seq<(string, string)>): (d: Dict)
    ensures Valid(d)
    ensures forall k :: k in d.values <==> k in KeysOf(pairs)
  {
    if pairs == [] then Empty
    else
      var last := pairs[|pairs| - 1];
      assert KeysOf(pairs) == KeysOf(pairs[..|pairs| - 1]) + [last.0];
      Put(FromPairs(pairs[..|pairs| - 1]), last.0, last.1)
  }

  function KeysOf(pairs: seq<(string, string)>): (ks: seq<string>)
    ensures |ks| == |pairs|
    ensures forall i :: 0 <= i < |pairs| ==> ks[i] == pairs[i].0
  {
    seq(|pairs|, i requires 0 <= i < |pairs| => pairs[i].0)
  }

  /** Position of the first occurrence of `k` in `s`. */
  function FirstIndex(s: seq<string>, k: string): (i: nat)
    requires k in s
    ensures i < |s| && s[i] == k
    ensures forall j :: 0 <= j < i ==> s[j] != k
  {
    if s[0] == k then 0 else 1 + FirstIndex(s[1..], k)
  }

  lemma {:induction false} FirstIndexExtend(s: seq<string>, x: string, k: string)
    requires k in s
    ensures FirstIndex(s + [x], k) == FirstIndex(s, k)
  {
    var i := FirstIndex(s, k);
    var t := s + [x];
    assert t[i] == k;
    assert forall j :: 0 <= j < i ==> t[j] != k;
    FirstIndexUnique(t, k, i);
  }

  lemma FirstIndexUnique(s: seq<string>, k: string, i: nat)
    requires i < |s| && s[i] == k
    requires forall j :: 0 <= j < i ==> s[j] != k
    ensures FirstIndex(s, k) == i
  {
  }

  /** The values of `dict(pairs)`: every pair written in turn over a plain map. */
  function ValuesOf(pairs: seq<(string, string)>): map<string, string> {
    if pairs == [] then map[]
    else
      var last := pairs[|pairs| - 1];
      ValuesOf(pairs[..|pairs| - 1])[last.0 := last.1]
  }

  lemma {:induction false} FromPairsValues(pairs: seq<(string, string)>)
    ensures FromPairs(pairs).values == ValuesOf(pairs)
  {
    if pairs != [] {
      FromPairsValues(pairs[..|pairs| - 1]);
    }
  }

  lemma {:induction false} ValuesLastWins(pairs: seq<(string, string)>, i: nat)
    requires i < |pairs|
    requires forall j :: i < j < |pairs| ==> pairs[j].0 != pairs[i].0
    ensures pairs[i].0 in ValuesOf(pairs) && ValuesOf(pairs)[pairs[i].0] == pairs[i].1
  {
    var n := |pairs| - 1;
    if i < n {
      var front := pairs[..n];
      assert front[i] == pairs[i];
      assert pairs[n].0 != pairs[i].0;
      ValuesLastWins(front, i);
    }
  }

  /** The last pair with a given key decides that key's value. */
  lemma FromPairsLastWins(pairs: seq<(string, string)>, i: nat)
    requires i < |pairs|
    requires forall j :: i < j < |pairs| ==> pairs[j].0 != pairs[i].0
    ensures FromPairs(pairs).values[pairs[i].0] == pairs[i].1
  {
    FromPairsValues(pairs);
    ValuesLastWins(pairs, i);
  }

  /** First occurrences of `ks`, in order: the key order of a dict built from keys `ks`. */
  function Dedup(ks: seq<string>): (r: seq<string>)
    ensures forall k :: k in r <==> k in ks
  {
    if ks == [] then []
    else
      var n := |ks| - 1;
      var p := Dedup(ks[..n]);
      if ks[n] in p then p else p + [ks[n]]
  }

  lemma {:induction false} FromPairsKeys(pairs: seq<(string, string)>)
    ensures FromPairs(pairs).keys == Dedup(KeysOf(pairs))
  {
    if pairs != [] {
      var n := |pairs| - 1;
      FromPairsKeys(pairs[..n]);
      assert KeysOf(pairs)[..n] == KeysOf(pairs[..n]);
    }
  }

  /** Deduplicated keys stand in the order of their first occurrence. */
  lemma {:induction false} DedupOrder(ks: seq<string>, a: nat, b: nat)
    requires a < b < |Dedup(ks)|
    ensures FirstIndex(ks, Dedup(ks)[a]) < FirstIndex(ks, Dedup(ks)[b])
  {
    var n := |ks| - 1;
    var front := ks[..n];
    var p := Dedup(front);
    assert ks == front + [ks[n]];
    var r := Dedup(ks);
    assert r[a] == p[a] && r[a] in front;
    FirstIndexExtend(front, ks[n], p[a]);
    if b < |p| {
      assert r[b] == p[b];
      FirstIndexExtend(front, ks[n], p[b]);
      DedupOrder(front, a, b);
    } else {
      assert ks[n] !in front && r[b] == ks[n];
      FirstIndexUnique(ks, ks[n], n);
    }
  }

  /** The keys of `dict(pairs)` stand in the order of their first occurrence among the pairs. */
  lemma FromPairsOrder(pairs: seq<(string, string)>, a: nat, b: nat)
    requires a < b < |FromPairs(pairs).keys|
    ensures FirstIndex(KeysOf(pairs), FromPairs(pairs).keys[a]) < FirstIndex(KeysOf(pairs), FromPairs(pairs).keys[b])
  {
    FromPairsKeys(pairs);
    DedupOrder(KeysOf(pairs), a, b);
  }

  /** The `ValueError` of `dict()`: entry `index` split into `length` parts instead of two. */
  datatype TagError = TagError(index: nat, length: nat)

  /** `'key=value'` split on every `=`; a well-formed entry has exactly two parts. */
  predicate WellFormed(entry: string) {
    |Split(entry, '=')| == 2
  }

  /** The generator `t.split('=') for t in entries`, consumed by `dict()` up to the first bad entry. */
  function SplitEntries(entries: seq<string>): (r: Result<seq<(string, string)>, TagError>)
    ensures r.Ok? <==> forall i :: 0 <= i < |entries| ==> WellFormed(entries[i])
    ensures r.Ok? ==> |r.value| == |entries|
    ensures r.Ok? ==> forall i :: 0 <= i < |entries| ==>
      var parts := Split(entries[i], '=');
      r.value[i] == (parts[0], parts[1])
    ensures r.Err? ==>
      && r.error.index < |entries|
      && !WellFormed(entries[r.error.index])
      && r.error.length == |Split(entries[r.error.index], '=')|
      && forall i :: 0 <= i < r.error.index ==> WellFormed(entries[i])
  {
    if entries == [] then Ok([])
    else
      var n := |entries| - 1;
      assert forall i :: 0 <= i < n ==> entries[..n][i] == entries[i];
      match SplitEntries(entries[..n])
      case Err(e) => Err(e)
      case Ok(pairs) =>
        var parts := Split(entries[n], '=');
        if |parts| == 2 then Ok(pairs + [(parts[0], parts[1])])
        else Err(TagError(n, |parts|))
  }

  /** An entry is well-formed exactly when it holds a single `=`. */
  lemma WellFormedIff(entry: string)
    ensures WellFormed(entry) <==> Count(entry, '=') == 1
  {
  }

  /** A well-formed entry is `key + "=" + value` with no `=` in either part. */
  lemma WellFormedParts(entry: string)
    requires WellFormed(entry)
    ensures var parts := Split(entry, '=');
      entry == parts[0] + "=" + parts[1] && '=' !in parts[0] && '=' !in parts[1]
  {
    JoinSplit(entry, '=');
  }

  /** Any key and value without `=` make a well-formed entry that parses back to them. */
  lemma EntryRoundTrip(key: string, value: string)
    requires '=' !in key && '=' !in value
    ensures WellFormed(key + "=" + value)
    ensures Split(key + "=" + value, '=') == [key, value]
  {
    SplitJoin([key, value], '=');
  }

  /** `dict(t.split('=') for t in entries)`. */
  function ParseTags(entries: seq<string>): (r: Result<Dict, TagError>)
    ensures r.Ok? <==> forall i :: 0 <= i < |entries| ==> WellFormed(entries[i])
    ensures r.Ok? ==> Valid(r.value)
  {
    match SplitEntries(entries)
    case Err(e) => Err(e)
    case Ok(pairs) => Ok(FromPairs(pairs))
  }

  /** Key of a well-formed entry. */
  function KeyOf(entry: string): string
    requires WellFormed(entry)
  {
    Split(entry, '=')[0]
  }

  /** A successful parse holds a key for each entry and no other. */
  lemma ParseTagsKeys(entries: seq<string>, k: string)
    requires forall i :: 0 <= i < |entries| ==> WellFormed(entries[i])
    ensures ParseTags(entries).Ok?
    ensures k in ParseTags(entries).value.values <==> HasKey(entries, k)
  {
    var pairs := SplitEntries(entries).value;
    var ks := KeysOf(pairs);
    if k in FromPairs(pairs).values {
      var i :| 0 <= i < |ks| && ks[i] == k;
      assert KeyOf(entries[i]) == k;
    }
  }

  /** For a repeated key the value of its last entry wins. */
  lemma ParseTagsLastWins(entries: seq<string>, i: nat)
    requires forall i :: 0 <= i < |entries| ==> WellFormed(entries[i])
    requires i < |entries|
    requires forall j :: i < j < |entries| ==> KeyOf(entries[j]) != KeyOf(entries[i])
    ensures ParseTags(entries).Ok?
    ensures ParseTags(entries).value.values[KeyOf(entries[i])] == Split(entries[i], '=')[1]
  {
    var pairs := SplitEntries(entries).value;
    FromPairsLastWins(pairs, i);
  }

  /** Keys keep the position of their first entry: earlier first entry, earlier key. */
  lemma ParseTagsOrder(entries: seq<string>, a: nat, b: nat)
    requires forall i :: 0 <= i < |entries| ==> WellFormed(entries[i])
    requires ParseTags(entries).Ok? && a < b < |ParseTags(entries).value.keys|
    ensures HasKey(entries, ParseTags(entries).value.keys[a])
    ensures HasKey(entries, ParseTags(entries).value.keys[b])
    ensures var d := ParseTags(entries).value;
      FirstEntry(entries, d.keys[a]) < FirstEntry(entries, d.keys[b])
  {
    var pairs := SplitEntries(entries).value;
    var d := FromPairs(pairs);
    var ks := KeysOf(pairs);
    assert forall i :: 0 <= i < |entries| ==> ks[i] == KeyOf(entries[i]);
    FromPairsOrder(pairs, a, b);
    FirstEntryIsFirstIndex(entries, ks, d.keys[a]);
    FirstEntryIsFirstIndex(entries, ks, d.keys[b]);
  }

  /** Some entry has key `k`. */
  predicate HasKey(entries: seq<string>, k: string)
    requires forall i :: 0 <= i < |entries| ==> WellFormed(entries[i])
  {
    exists i :: 0 <= i < |entries| && KeyOf(entries[i]) == k
  }

  /** Index of the first entry whose key is `k`. */
  function FirstEntry(entries: seq<string>, k: string): (i: nat)
    requires forall i :: 0 <= i < |entries| ==> WellFormed(entries[i])
    requires HasKey(entries, k)
    ensures i < |entries| && KeyOf(entries[i]) == k
    ensures forall j :: 0 <= j < i ==> KeyOf(entries[j]) != k
  {
    if KeyOf(entries[0]) == k then 0
    else
      assert HasKey(entries[1..], k) by {
        var i :| 0 <= i < |entries| && KeyOf(entries[i]) == k;
        assert i > 0 && entries[1..][i - 1] == entries[i];
      }
      1 + FirstEntry(entries[1..], k)
  }

  lemma FirstEntryIsFirstIndex(entries: seq<string>, ks: seq<string>, k: string)
    requires forall i :: 0 <= i < |entries| ==> WellFormed(entries[i])
    requires |ks| == |entries| && forall i :: 0 <= i < |entries| ==> ks[i] == KeyOf(entries[i])
    requires k in ks
    ensures HasKey(entries, k)
    ensures FirstEntry(entries, k) == FirstIndex(ks, k)
  {
    var f := FirstIndex(ks, k);
    assert KeyOf(entries[f]) == k;
    var e := FirstEntry(entries, k);
    assert ks[e] == k;
  }
}
