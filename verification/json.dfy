/**
 * The JSON values the bot exchanges with the CRM and Slack, Python's
 * truthiness on them, dictionaries as ordered association lists (a Python
 * dict keeps insertion order), and the CRM client as an oracle.
 */
module JsonModel {
  import opened Text

  datatype Json =
    | JNull
    | JBool(b: bool)
    | JInt(i: int)
    | JFloat(f: real)
    | JStr(s: string)
    | JList(items: seq<Json>)
    | JObj(fields: seq<(string, Json)>)

  /** A dictionary with string keys: its items in insertion order. */
  type Dict<V> = seq<(string, V)>

  /** A JSON object's items. */
  type Fields = Dict<Json>

  /** Python's bool(value). */
  predicate Truthy(j: Json) {
    match j
    case JNull => false
    case JBool(b) => b
    case JInt(i) => i != 0
    case JFloat(f) => f != 0.0
    case JStr(s) => s != ""
    case JList(items) => items != []
    case JObj(fields) => fields != []
  }

  /** Python's `a or b`: the first operand when it is truthy, else the second. */
  function Or(a: Json, b: Json): (r: Json)
    ensures Truthy(r) <==> Truthy(a) || Truthy(b)
  {
    if Truthy(a) then a else b
  }

  function Keys<V>(fs: Dict<V>): (ks: seq<string>)
    ensures |ks| == |fs|
    ensures forall i :: 0 <= i < |fs| ==> ks[i] == fs[i].0
  {
    if fs == [] then [] else [fs[0].0] + Keys(fs[1..])
  }

  /** d[k] when present. */
  function Lookup<V>(fs: Dict<V>, k: string): (r: Option<V>)
    ensures r.Some? <==> k in Keys(fs)
    ensures r.Some? ==> (k, r.value) in fs
  {
    if fs == [] then None
    else if fs[0].0 == k then Some(fs[0].1)
    else Lookup(fs[1..], k)
  }

  /** A key of the first part hides the same key in the second part. */
  lemma {:induction false} LookupConcat<V>(a: Dict<V>, b: Dict<V>, k: string)
    ensures Lookup(a + b, k) == if Lookup(a, k).Some? then Lookup(a, k) else Lookup(b, k)
    decreases |a|
  {
    if a != [] {
      assert (a + b)[1..] == a[1..] + b;
      assert (a + b)[0] == a[0];
      LookupConcat(a[1..], b, k);
    } else {
      assert a + b == b;
    }
  }

  /** The entry one assignment adds: none when it is skipped. */
  function Entry(slot: (string, Option<Json>)): Fields {
    if slot.1.Some? then [(slot.0, slot.1.value)] else []
  }

  /**
   * A dictionary filled by a fixed series of assignments to distinct keys,
   * each of which may be skipped: the entries whose value is present, in order.
   */
  function Entries(slots: seq<(string, Option<Json>)>): (r: Fields)
    ensures |r| <= |slots|
  {
    if slots == [] then [] else Entries(slots[..|slots| - 1]) + Entry(slots[|slots| - 1])
  }

  /** One more assignment. */
  lemma EntriesStep(slots: seq<(string, Option<Json>)>, k: nat)
    requires 0 < k <= |slots|
    ensures Entries(slots[..k]) == Entries(slots[..k - 1]) + Entry(slots[k - 1])
  {
    assert slots[..k][..k - 1] == slots[..k - 1];
  }

  predicate DistinctKeys(slots: seq<(string, Option<Json>)>) {
    forall i, j :: 0 <= i < j < |slots| ==> slots[i].0 != slots[j].0
  }

  predicate DistinctStrings(keys: seq<string>) {
    forall i, j :: 0 <= i < j < |keys| ==> keys[i] != keys[j]
  }

  /** The assignments to `keys`, in order, with the matching `values`. */
  function Slots(keys: seq<string>, values: seq<Option<Json>>): (r: seq<(string, Option<Json>)>)
    requires |keys| == |values|
    ensures |r| == |keys| && forall i :: 0 <= i < |r| ==> r[i] == (keys[i], values[i])
  {
    seq(|keys|, i requires 0 <= i < |keys| => (keys[i], values[i]))
  }

  /** Assignments to distinct keys: each key ends up holding its own value, or is absent when that was skipped. */
  lemma SlotsLookup(keys: seq<string>, values: seq<Option<Json>>, i: nat)
    requires |keys| == |values| && DistinctStrings(keys) && i < |keys|
    ensures Lookup(Entries(Slots(keys, values)), keys[i]) == values[i]
  {
    EntriesLookup(Slots(keys, values), i);
  }

  /** Each key holds the value of its own assignment, or is absent when that one was skipped. */
  lemma {:induction false} EntriesLookup(slots: seq<(string, Option<Json>)>, i: nat)
    requires DistinctKeys(slots) && i < |slots|
    ensures Lookup(Entries(slots), slots[i].0) == slots[i].1
    decreases |slots|
  {
    var n := |slots| - 1;
    var init, k := slots[..n], slots[i].0;
    assert Entries(slots) == Entries(init) + Entry(slots[n]);
    LookupConcat(Entries(init), Entry(slots[n]), k);
    if i == n {
      forall j | 0 <= j < |init| ensures init[j].0 != k {
        assert init[j] == slots[j];
      }
      EntriesAbsent(init, k);
      assert Lookup(Entry(slots[n]), k) == slots[n].1;
    } else {
      assert init[i] == slots[i];
      assert DistinctKeys(init) by {
        forall a, b | 0 <= a < b < |init| ensures init[a].0 != init[b].0 {
          assert init[a] == slots[a] && init[b] == slots[b];
        }
      }
      EntriesLookup(init, i);
    }
  }

  /** A key no assignment names is absent. */
  lemma {:induction false} EntriesAbsent(slots: seq<(string, Option<Json>)>, k: string)
    requires forall i :: 0 <= i < |slots| ==> slots[i].0 != k
    ensures Lookup(Entries(slots), k) == None
    decreases |slots|
  {
    if slots != [] {
      var n := |slots| - 1;
      var init := slots[..n];
      assert Entries(slots) == Entries(init) + Entry(slots[n]);
      assert Lookup(Entry(slots[n]), k) == None by {
        assert slots[n].0 != k;
      }
      forall j | 0 <= j < |init| ensures init[j].0 != k {
        assert init[j] == slots[j];
      }
      LookupConcat(Entries(init), Entry(slots[n]), k);
      EntriesAbsent(init, k);
    }
  }

  /** d.get(k, default). */
  function GetOr(fs: Fields, k: string, default: Json): Json {
    match Lookup(fs, k)
    case Some(v) => v
    case None => default
  }

  /** value.get(k, default) on a value that is expected to be a dictionary. */
  function FieldOr(j: Json, k: string, default: Json): Json {
    if j.JObj? then GetOr(j.fields, k, default) else default
  }

  /** value.get(k). */
  function Field(j: Json, k: string): Json {
    FieldOr(j, k, JNull)
  }

  /** d[k] = v: overwrites the value in place, or appends a new item. */
  function Put<V>(fs: Dict<V>, k: string, v: V): (r: Dict<V>)
    ensures Lookup(r, k) == Some(v)
    ensures forall k' :: k' != k ==> Lookup(r, k') == Lookup(fs, k')
    ensures Keys(r) == if k in Keys(fs) then Keys(fs) else Keys(fs) + [k]
  {
    PutFacts(fs, k, v);
    Store(fs, k, v)
  }

  function Store<V>(fs: Dict<V>, k: string, v: V): Dict<V> {
    if fs == [] then [(k, v)]
    else if fs[0].0 == k then [(k, v)] + fs[1..]
    else [fs[0]] + Store(fs[1..], k, v)
  }

  lemma PutFacts<V>(fs: Dict<V>, k: string, v: V)
    ensures Lookup(Store(fs, k, v), k) == Some(v)
    ensures forall k' :: k' != k ==> Lookup(Store(fs, k, v), k') == Lookup(fs, k')
    ensures Keys(Store(fs, k, v)) == if k in Keys(fs) then Keys(fs) else Keys(fs) + [k]
  {
    StoreLookup(fs, k, v);
    forall k' | k' != k ensures Lookup(Store(fs, k, v), k') == Lookup(fs, k') {
      StoreOthers(fs, k, v, k');
    }
    StoreKeys(fs, k, v);
  }

  lemma {:induction false} StoreLookup<V>(fs: Dict<V>, k: string, v: V)
    ensures Lookup(Store(fs, k, v), k) == Some(v)
    decreases |fs|
  {
    if fs != [] && fs[0].0 != k {
      StoreLookup(fs[1..], k, v);
      assert ([fs[0]] + Store(fs[1..], k, v))[1..] == Store(fs[1..], k, v);
    }
  }

  lemma {:induction false} StoreOthers<V>(fs: Dict<V>, k: string, v: V, k': string)
    requires k' != k
    ensures Lookup(Store(fs, k, v), k') == Lookup(fs, k')
    decreases |fs|
  {
    if fs == [] {
    } else if fs[0].0 == k {
      assert ([(k, v)] + fs[1..])[1..] == fs[1..];
    } else if fs[0].0 != k' {
      StoreOthers(fs[1..], k, v, k');
      assert ([fs[0]] + Store(fs[1..], k, v))[1..] == Store(fs[1..], k, v);
    }
  }

  lemma {:induction false} StoreKeys<V>(fs: Dict<V>, k: string, v: V)
    ensures Keys(Store(fs, k, v)) == if k in Keys(fs) then Keys(fs) else Keys(fs) + [k]
    decreases |fs|
  {
    var r := Store(fs, k, v);
    if fs == [] {
    } else if fs[0].0 == k {
      assert r[1..] == fs[1..];
      assert Keys(r) == [k] + Keys(fs[1..]) == Keys(fs);
    } else {
      var rest := Store(fs[1..], k, v);
      StoreKeys(fs[1..], k, v);
      assert r[1..] == rest;
      assert Keys(r) == [fs[0].0] + Keys(rest);
      assert Keys(fs) == [fs[0].0] + Keys(fs[1..]);
      assert k in Keys(fs) <==> k in Keys(fs[1..]);
    }
  }

  /** Storing a key keeps the existing keys in front, in their order. */
  lemma PutKeepsKeys<V>(fs: Dict<V>, k: string, v: V)
    ensures |Keys(fs)| <= |Keys(Put(fs, k, v))| && Keys(Put(fs, k, v))[..|Keys(fs)|] == Keys(fs)
  {
    if k !in Keys(fs) {
      assert (Keys(fs) + [k])[..|Keys(fs)|] == Keys(fs);
    }
  }

  /** del d[k] / d.pop(k, None). */
  function Remove<V>(fs: Dict<V>, k: string): (r: Dict<V>)
    ensures Lookup(r, k) == None
    ensures forall k' :: k' != k ==> Lookup(r, k') == Lookup(fs, k')
    ensures forall p :: p in r ==> p in fs
  {
    if fs == [] then []
    else if fs[0].0 == k then Remove(fs[1..], k)
    else
      var rest := Remove(fs[1..], k);
      var r := [fs[0]] + rest;
      assert r[1..] == rest;
      r
  }

  /** The outcome of a call into code that may raise: Raised is an exception escaping it. */
  datatype Fetch<T> = Raised | Returned(value: T)

  /** The CRM record collections. */
  datatype Collection = People | Companies | Opportunities | Leads | Tasks | Projects

  /**
   * The CRM client seen from the bot. Searches return the records the server
   * sent (transport errors and non-list replies already become the empty list
   * inside the client), reads return the record or None; Raised stands for an
   * exception that escapes the client anyway.
   */
  datatype Crm = Crm(
    search: (Collection, Fields) -> Fetch<seq<Json>>,
    get: (Collection, Json) -> Fetch<Option<Json>>,
    create: (Collection, Fields) -> Fetch<Option<Json>>,
    update: (Collection, Json, Fields) -> Fetch<Option<Json>>,
    delete: (Collection, Json) -> Fetch<bool>,
    findOpportunityByName: (string, Json) -> Fetch<Option<Json>>)
}
