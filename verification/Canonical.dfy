/** Canonical bytes and content hashes of Python values. */
module Canonical {
  import opened ByteStrings
  import opened JsonText

  /** What `canonical_bytes` may be handed. `Foreign` is a value of any other type. A dictionary
      keeps its entries in insertion order; its keys are distinct. */
  datatype Py =
    | PyNone
    | PyBool(b: bool)
    | PyInt(n: int)
    | PyFloat
    | PyStr(s: string)
    | PyList(items: seq<Py>)
    | PyTuple(parts: seq<Py>)
    | PyDict(entries: seq<Entry>)
    | Foreign

  datatype Key = Text(text: string) | NonText(tag: int)
  datatype Entry = Entry(key: Key, value: Py)

  ghost predicate Distinct(entries: seq<Entry>) {
    forall i, j :: 0 <= i < j < |entries| ==> entries[i].key != entries[j].key
  }

  /** Every dictionary inside `v` has distinct keys, as Python's have. */
  ghost predicate Proper(v: Py) {
    match v
    case PyList(items) => forall x :: x in items ==> Proper(x)
    case PyTuple(parts) => forall x :: x in parts ==> Proper(x)
    case PyDict(entries) => Distinct(entries) && forall e :: e in entries ==> Proper(e.value)
    case _ => true
  }

  /** `_check` returns (rather than raising `NotCanonicalizable`). */
  predicate Accepted(v: Py) {
    match v
    case PyFloat => false
    case Foreign => false
    case PyList(items) => forall x :: x in items ==> Accepted(x)
    case PyTuple(parts) => forall x :: x in parts ==> Accepted(x)
    case PyDict(entries) => forall e :: e in entries ==> e.key.Text? && Accepted(e.value)
    case _ => true
  }

  /** The JSON value of an accepted Python value: tuples are lists and key order is forgotten. */
  function ToJson(v: Py): Json
    requires Accepted(v)
    decreases v, 1, 0
  {
    match v
    case PyNone => Null
    case PyBool(b) => Bool(b)
    case PyInt(n) => Int(n)
    case PyStr(s) => Str(s)
    case PyList(items) => Arr(seq(|items|, i requires 0 <= i < |items| => ToJson(items[i])))
    case PyTuple(parts) => Arr(seq(|parts|, i requires 0 <= i < |parts| => ToJson(parts[i])))
    case PyDict(entries) => Obj(Fields(v, entries))
  }

  /** The dictionary that holds some entries of `v`; a later entry replaces an earlier one. */
  function Fields(v: Py, entries: seq<Entry>): map<string, Json>
    requires Accepted(v) && v.PyDict? && forall e :: e in entries ==> e in v.entries
    decreases v, 0, |entries|
  {
    if entries == [] then map[]
    else
      assert entries[0] in entries;
      map[entries[0].key.text := ToJson(entries[0].value)] + Fields(v, entries[1..])
  }

  // ---------------------------------------- dumping the entries in sorted order

  function Insert(e: Entry, sorted: seq<Entry>): (r: seq<Entry>)
    requires e.key.Text? && forall x :: x in sorted ==> x.key.Text?
    ensures |r| == |sorted| + 1 && forall x :: x in r <==> x == e || x in sorted
  {
    if sorted == [] then [e]
    else if StrLe(e.key.text, sorted[0].key.text) then [e] + sorted
    else
      assert sorted == [sorted[0]] + sorted[1..];
      [sorted[0]] + Insert(e, sorted[1..])
  }

  /** `sorted(d.items())`: keys are distinct, so values are never compared. */
  function SortEntries(entries: seq<Entry>): (r: seq<Entry>)
    requires forall e :: e in entries ==> e.key.Text?
    ensures |r| == |entries| && forall e :: e in r <==> e in entries
  {
    if entries == [] then []
    else
      assert entries == [entries[0]] + entries[1..];
      Insert(entries[0], SortEntries(entries[1..]))
  }

  /** The text `json.dumps` writes: it sorts the entries it is given and never builds a `Json`. */
  function Dump(v: Py): string
    requires Accepted(v)
    decreases v, 1, 0
  {
    match v
    case PyNone => "null"
    case PyBool(b) => if b then "true" else "false"
    case PyInt(n) => Signed(n)
    case PyStr(s) => Quote(s)
    case PyList(items) => if items == [] then "[]" else "[" + DumpItems(items)
    case PyTuple(parts) => if parts == [] then "[]" else "[" + DumpItems(parts)
    case PyDict(entries) => if entries == [] then "{}" else "{" + DumpEntries(v, SortEntries(entries))
  }

  function DumpItems(items: seq<Py>): string
    requires items != [] && forall x :: x in items ==> Accepted(x)
    decreases items, 0, 0
  {
    Dump(items[0]) + if |items| == 1 then "]" else "," + DumpItems(items[1..])
  }

  function DumpEntries(v: Py, entries: seq<Entry>): string
    requires Accepted(v) && v.PyDict? && entries != [] && forall e :: e in entries ==> e in v.entries
    decreases v, 0, |entries|
  {
    Quote(entries[0].key.text) + ":" + Dump(entries[0].value)
    + if |entries| == 1 then "}" else "," + DumpEntries(v, entries[1..])
  }

  /** `canonical_bytes`; `None` is `NotCanonicalizable`. */
  function CanonicalBytes(v: Py): Option<Bytes> {
    if Accepted(v) then Some(Utf8(Dump(v))) else None
  }

  // ------------------------------------- the dump is the text of the JSON value

  function KeysOf(entries: seq<Entry>): (ks: seq<string>)
    requires forall e :: e in entries ==> e.key.Text?
    ensures |ks| == |entries| && forall i :: 0 <= i < |ks| ==> ks[i] == entries[i].key.text
  {
    if entries == [] then [] else [entries[0].key.text] + KeysOf(entries[1..])
  }

  lemma KeysOfCons(e: Entry, rest: seq<Entry>)
    requires e.key.Text? && forall x :: x in rest ==> x.key.Text?
    ensures KeysOf([e] + rest) == [e.key.text] + KeysOf(rest)
  {
    assert ([e] + rest)[1..] == rest;
  }

  lemma {:induction false} InsertSorts(e: Entry, sorted: seq<Entry>)
    requires e.key.Text? && forall x :: x in sorted ==> x.key.Text?
    requires StrictlySorted(KeysOf(sorted)) && e.key.text !in KeysOf(sorted)
    ensures StrictlySorted(KeysOf(Insert(e, sorted)))
    ensures forall k :: k in KeysOf(Insert(e, sorted)) <==> k == e.key.text || k in KeysOf(sorted)
  {
    hide StrLe, StrictlySorted, KeysOf;
    var ks := KeysOf(sorted);
    var k := e.key.text;
    if sorted == [] || StrLe(k, ks[0]) {
      KeysOfCons(e, sorted);
      assert Insert(e, sorted) == [e] + sorted;
      PrependSorted(k, ks);
    } else {
      var rest := sorted[1..];
      assert sorted == [sorted[0]] + rest;
      KeysOfCons(sorted[0], rest);
      assert KeysOf(rest) == ks[1..];
      TailIsSorted(ks);
      InsertSorts(e, rest);
      var r := KeysOf(Insert(e, rest));
      KeysOfCons(sorted[0], Insert(e, rest));
      StrLeTotal(k, ks[0]);
      assert r[0] in r;
      PrependSorted(ks[0], r);
    }
  }

  lemma {:induction false} SortSorts(entries: seq<Entry>)
    requires Distinct(entries) && forall e :: e in entries ==> e.key.Text?
    ensures StrictlySorted(KeysOf(SortEntries(entries)))
    ensures forall k :: k in KeysOf(SortEntries(entries)) <==> k in KeysOf(entries)
  {
    hide StrLe, Insert;
    if entries != [] {
      var e, rest := entries[0], entries[1..];
      SortSorts(rest);
      assert KeysOf(entries) == [e.key.text] + KeysOf(rest);
      assert e.key.text !in KeysOf(rest);
      InsertSorts(e, SortEntries(rest));
    }
  }

  lemma TextKeys(v: Py)
    requires Accepted(v) && v.PyDict?
    ensures forall e :: e in v.entries ==> e.key.Text? && Accepted(e.value)
  {
  }

  /** Where a dictionary with distinct keys takes its values from. */
  lemma {:induction false} FieldsLookup(v: Py, entries: seq<Entry>)
    requires Accepted(v) && v.PyDict? && forall e :: e in entries ==> e in v.entries
    requires Distinct(entries)
    ensures forall k :: k in Fields(v, entries) <==> k in KeysOf(entries)
    ensures forall e :: e in entries ==> e.key.text in Fields(v, entries) && Fields(v, entries)[e.key.text] == ToJson(e.value)
  {
    hide ToJson, Accepted, KeysOf;
    TextKeys(v);
    if entries != [] {
      var e, rest := entries[0], entries[1..];
      assert entries == [e] + rest;
      FieldsLookup(v, rest);
      KeysOfCons(e, rest);
      assert forall i :: 0 <= i < |rest| ==> rest[i] == entries[i + 1];
      assert e.key.text !in KeysOf(rest);
    }
  }

  lemma {:induction false} DumpIsPrint(v: Py)
    requires Accepted(v) && Proper(v)
    ensures Dump(v) == Print(ToJson(v))
    decreases v, 1, 0
  {
    hide StrLe;
    match v
    case PyList(items) =>
      if items != [] {
        DumpItemsIsPrint(items, ToJson(v).items);
      }
    case PyTuple(parts) =>
      if parts != [] {
        DumpItemsIsPrint(parts, ToJson(v).items);
      }
    case PyDict(entries) => DumpDictIsPrint(v);
    case _ =>
  }

  lemma {:induction false} DumpDictIsPrint(v: Py)
    requires Accepted(v) && Proper(v) && v.PyDict?
    ensures Dump(v) == Print(ToJson(v))
    decreases v, 0, |v.entries| + 1
  {
    hide StrLe, PrintMembers, DumpEntries, SortEntries, KeysOf, StrictlySorted;
    if v.entries != [] {
      SortedEntries(v);
      DumpEntriesIsPrint(v, SortEntries(v.entries));
    }
  }

  /** Sorting the entries of a dictionary walks its keys in order, each with its value. */
  lemma SortedEntries(v: Py)
    requires Accepted(v) && v.PyDict? && Distinct(v.entries)
    ensures var sorted, fields := SortEntries(v.entries), Fields(v, v.entries);
            && KeysOf(sorted) == SortedKeys(fields.Keys)
            && (v.entries != [] ==> fields != map[])
            && forall e :: e in sorted ==> e.key.text in fields && fields[e.key.text] == ToJson(e.value)
  {
    hide StrLe, Fields, SortEntries, ToJson, StrictlySorted;
    FieldsLookup(v, v.entries);
    SortSorts(v.entries);
    SortedIsUnique(KeysOf(SortEntries(v.entries)), SortedKeys(Fields(v, v.entries).Keys));
    if v.entries != [] {
      assert v.entries[0] in v.entries;
    }
  }

  lemma {:induction false} DumpItemsIsPrint(items: seq<Py>, js: seq<Json>)
    requires items != [] && |js| == |items|
    requires forall x :: x in items ==> Accepted(x) && Proper(x)
    requires forall i :: 0 <= i < |items| ==> js[i] == ToJson(items[i])
    ensures DumpItems(items) == PrintItems(js)
    decreases items, 0, 0
  {
    hide Dump, Print;
    DumpIsPrint(items[0]);
    if |items| > 1 {
      DumpItemsIsPrint(items[1..], js[1..]);
    }
  }

  lemma {:induction false} DumpEntriesIsPrint(v: Py, entries: seq<Entry>)
    requires Accepted(v) && Proper(v) && v.PyDict? && entries != []
    requires forall e :: e in entries ==> e in v.entries
    requires forall e :: e in entries ==> e.key.text in ToJson(v).fields && ToJson(v).fields[e.key.text] == ToJson(e.value)
    ensures DumpEntries(v, entries) == PrintMembers(ToJson(v), KeysOf(entries))
    decreases v, 0, |entries|
  {
    hide Dump, Print, Quote, ToJson;
    assert entries[0] in entries;
    var i :| 0 <= i < |v.entries| && v.entries[i] == entries[0];
    DumpIsPrint(v.entries[i].value);
    if |entries| > 1 {
      DumpEntriesIsPrint(v, entries[1..]);
      assert KeysOf(entries)[1..] == KeysOf(entries[1..]);
    }
  }

  // -------------------------------------------------- what canonical bytes mean

  /** Equal canonical bytes exactly when the values are equal as JSON. */
  lemma CanonicalBytesInjective(v: Py, w: Py)
    requires Accepted(v) && Proper(v) && Accepted(w) && Proper(w)
    ensures CanonicalBytes(v) == CanonicalBytes(w) <==> ToJson(v) == ToJson(w)
  {
    hide Dump, Print, ToJson, Utf8;
    DumpIsPrint(v);
    DumpIsPrint(w);
    if CanonicalBytes(v) == CanonicalBytes(w) {
      Utf8Injective(Dump(v), Dump(w));
      LoadsPrints(ToJson(v));
      LoadsPrints(ToJson(w));
    }
  }

  /** Insertion order is irrelevant: two dictionaries with the same entries are the same value. */
  lemma KeyOrderIsIrrelevant(d: seq<Entry>, e: seq<Entry>)
    requires Accepted(PyDict(d)) && Proper(PyDict(d)) && Accepted(PyDict(e)) && Proper(PyDict(e))
    requires multiset(d) == multiset(e)
    ensures CanonicalBytes(PyDict(d)) == CanonicalBytes(PyDict(e))
  {
    hide Fields, Accepted;
    SameFields(d, e);
    CanonicalBytesInjective(PyDict(d), PyDict(e));
  }

  lemma SubFields(d: seq<Entry>, e: seq<Entry>)
    requires Accepted(PyDict(d)) && Distinct(d) && Accepted(PyDict(e)) && Distinct(e)
    requires forall x :: x in d ==> x in e
    ensures var f, g := Fields(PyDict(d), d), Fields(PyDict(e), e);
            forall k :: k in f ==> k in g && f[k] == g[k]
  {
    hide Fields, ToJson, Distinct;
    var f, g := Fields(PyDict(d), d), Fields(PyDict(e), e);
    FieldsLookup(PyDict(d), d);
    FieldsLookup(PyDict(e), e);
    forall k | k in f
      ensures k in g && f[k] == g[k]
    {
      var i :| 0 <= i < |d| && KeysOf(d)[i] == k;
      assert d[i] in d && d[i] in e;
    }
  }

  lemma SameFields(d: seq<Entry>, e: seq<Entry>)
    requires Accepted(PyDict(d)) && Distinct(d) && Accepted(PyDict(e)) && Distinct(e)
    requires multiset(d) == multiset(e)
    ensures Fields(PyDict(d), d) == Fields(PyDict(e), e)
  {
    hide Fields, ToJson, Distinct, Accepted;
    assert forall x :: x in d ==> x in multiset(d);
    assert forall x :: x in e ==> x in multiset(e);
    SubFields(d, e);
    SubFields(e, d);
  }

  // ------------------------------------------------------------ content hashes

  /** The canonical bytes of a JSON value. */
  function JsonBytes(j: Json): Bytes {
    Utf8(Print(j))
  }

  /** `json.loads` on bytes. */
  function LoadBytes(b: Bytes): Option<Json> {
    var s :- DecodeUtf8(b);
    Loads(s)
  }

  lemma LoadBytesInverts(j: Json)
    ensures LoadBytes(JsonBytes(j)) == Some(j)
  {
    Utf8RoundTrip(Print(j));
    LoadsPrints(j);
  }

  /** `canonical_hash` */
  function CanonicalHash(H: Hash, j: Json): string {
    "sha256:" + ToHex(H(JsonBytes(j)))
  }

  const ZERO_HASH: string := "sha256:0000000000000000000000000000000000000000000000000000000000000000"

  function HashClash(j: Json, k: Json): Pair {
    Pair(JsonBytes(j), JsonBytes(k))
  }

  /** A content hash binds the value, or the two canonical texts collide. */
  lemma CanonicalHashBinds(H: Hash, j: Json, k: Json)
    requires CanonicalHash(H, j) == CanonicalHash(H, k)
    ensures j == k || Collides(H, HashClash(j, k))
  {
    hide Print;
    var a, b := H(JsonBytes(j)), H(JsonBytes(k));
    assert CanonicalHash(H, j)[7..] == ToHex(a) && CanonicalHash(H, k)[7..] == ToHex(b);
    HexRoundTrip(a);
    HexRoundTrip(b);
    if JsonBytes(j) == JsonBytes(k) {
      LoadBytesInverts(j);
      LoadBytesInverts(k);
    }
  }
}
