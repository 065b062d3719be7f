/** JSON values and their one text: sorted keys, compact separators, non-ASCII text left as it is.
    A reader of that text inverts the printer, even when more text follows, and so the printer is
    injective. */
module JsonText {
  import opened ByteStrings

  /** A JSON value as Python compares it: the order of dictionary keys is not part of it. */
  datatype Json =
    | Null
    | Bool(b: bool)
    | Int(n: int)
    | Str(s: string)
    | Arr(items: seq<Json>)
    | Obj(fields: map<string, Json>)

  // -------------------------------------------------- code-point string order

  /** Python's `<=` on strings. */
  predicate StrLe(a: string, b: string) {
    a == "" || (b != "" && (a[0] < b[0] || (a[0] == b[0] && StrLe(a[1..], b[1..]))))
  }

  lemma {:induction false} StrLeTotal(a: string, b: string)
    ensures StrLe(a, b) || StrLe(b, a)
  {
    if a != "" && b != "" {
      StrLeTotal(a[1..], b[1..]);
    }
  }

  lemma {:induction false} StrLeAntisymmetric(a: string, b: string)
    requires StrLe(a, b) && StrLe(b, a)
    ensures a == b
  {
    if a != "" && b != "" {
      StrLeAntisymmetric(a[1..], b[1..]);
      assert a == [a[0]] + a[1..] && b == [b[0]] + b[1..];
    }
  }

  lemma {:induction false} StrLeTransitive(a: string, b: string, c: string)
    requires StrLe(a, b) && StrLe(b, c)
    ensures StrLe(a, c)
  {
    if a != "" && b != "" && c != "" && a[0] == b[0] == c[0] {
      StrLeTransitive(a[1..], b[1..], c[1..]);
    }
  }

  ghost predicate LowerBound(k: string, ks: set<string>) {
    forall x :: x in ks ==> StrLe(k, x)
  }

  lemma {:induction false} LeastExists(ks: set<string>)
    requires ks != {}
    ensures exists k :: k in ks && LowerBound(k, ks)
  {
    hide StrLe;
    var a :| a in ks;
    var rest := ks - {a};
    StrLeTotal(a, a);
    if rest == {} {
      assert ks == {a};
      assert LowerBound(a, ks);
    } else {
      LeastExists(rest);
      var k :| k in rest && LowerBound(k, rest);
      StrLeTotal(a, k);
      if StrLe(a, k) {
        forall x | x in ks
          ensures StrLe(a, x)
        {
          if x != a {
            StrLeTransitive(a, k, x);
          }
        }
        assert LowerBound(a, ks);
      } else {
        assert LowerBound(k, ks);
      }
    }
  }

  function Least(ks: set<string>): (k: string)
    requires ks != {}
    ensures k in ks && forall x :: x in ks ==> StrLe(k, x)
  {
    LeastExists(ks);
    LeastIsUnique(ks);
    var k :| k in ks && forall x :: x in ks ==> StrLe(k, x);
    k
  }

  lemma LeastIsUnique(ks: set<string>)
    ensures forall a, b :: a in ks && b in ks && LowerBound(a, ks) && LowerBound(b, ks) ==> a == b
  {
    forall a, b | a in ks && b in ks && LowerBound(a, ks) && LowerBound(b, ks)
      ensures a == b
    {
      StrLeAntisymmetric(a, b);
    }
  }

  predicate StrictlySorted(ks: seq<string>) {
    forall i, j :: 0 <= i < j < |ks| ==> ks[i] != ks[j] && StrLe(ks[i], ks[j])
  }

  /** `sorted(ks)`: every key once, in code-point order. */
  function SortedKeys(ks: set<string>): (r: seq<string>)
    ensures forall k :: k in r <==> k in ks
    ensures StrictlySorted(r)
    ensures |r| == |ks|
  {
    if ks == {} then []
    else
      var k := Least(ks);
      var rest := SortedKeys(ks - {k});
      FirstIsLeast(k, ks, rest);
      PrependSorted(k, rest);
      [k] + rest
  }

  lemma FirstIsLeast(k: string, ks: set<string>, rest: seq<string>)
    requires LowerBound(k, ks) && forall x :: x in rest <==> x in ks && x != k
    ensures rest == [] || StrLe(k, rest[0])
  {
    hide StrLe;
    if rest != [] {
      assert rest[0] in rest;
    }
  }

  lemma TailHolds(a: seq<string>)
    requires StrictlySorted(a) && a != []
    ensures forall k :: k in a[1..] <==> k in a && k != a[0]
  {
    assert a == [a[0]] + a[1..];
    assert forall i :: 0 <= i < |a| - 1 ==> a[1..][i] == a[i + 1];
  }

  lemma TailIsSorted(a: seq<string>)
    requires StrictlySorted(a) && a != []
    ensures StrictlySorted(a[1..]) && a[0] !in a[1..]
    ensures forall k :: k in a[1..] ==> StrLe(a[0], k)
    ensures forall k :: k in a <==> k == a[0] || k in a[1..]
  {
    hide StrLe;
    TailHolds(a);
  }

  lemma PrependSorted(k: string, a: seq<string>)
    requires StrictlySorted(a) && k !in a && (a == [] || StrLe(k, a[0]))
    ensures StrictlySorted([k] + a)
  {
    hide StrLe;
    var r := [k] + a;
    forall i, j | 0 <= i < j < |r|
      ensures r[i] != r[j] && StrLe(r[i], r[j])
    {
      if i == 0 && j > 1 {
        StrLeTransitive(k, a[0], a[j - 1]);
      }
    }
  }

  lemma HasElement(a: seq<string>)
    requires a != []
    ensures exists k :: k in a
  {
    assert a[0] in a;
  }

  /** A strictly sorted sequence is the only one with its elements. */
  lemma {:induction false} SortedIsUnique(a: seq<string>, b: seq<string>)
    requires StrictlySorted(a) && StrictlySorted(b)
    requires forall k :: k in a <==> k in b
    ensures a == b
  {
    if a == [] {
      if b != [] {
        HasElement(b);
      }
    } else {
      assert a[0] in b && b[0] in a;
      if a[0] != b[0] {
        StrLeAntisymmetric(a[0], b[0]);
      }
      TailHolds(a);
      TailHolds(b);
      SortedIsUnique(a[1..], b[1..]);
    }
  }

  // ---------------------------------------------------------------- printing

  function EscapeChar(c: char): (s: string)
    ensures s != "" && s[0] != '\"'
  {
    if c == '\"' then "\\\""
    else if c == '\\' then "\\\\"
    else if c == '\n' then "\\n"
    else if c == '\r' then "\\r"
    else if c == '\t' then "\\t"
    else if c as int == 8 then "\\b"
    else if c as int == 12 then "\\f"
    else if c as int < 32 then "\\u00" + [HexDigit(c as int / 16), HexDigit(c as int % 16)]
    else [c]
  }

  function Escape(s: string): string {
    if s == "" then "" else EscapeChar(s[0]) + Escape(s[1..])
  }

  function Quote(s: string): string {
    "\"" + Escape(s) + "\""
  }

  function Signed(n: int): string {
    if n < 0 then "-" + Decimal(-n) else Decimal(n)
  }

  /** `json.dumps(obj, sort_keys=True, separators=(",", ":"), ensure_ascii=False)` */
  function Print(j: Json): string
    decreases j, 1, 0
  {
    match j
    case Null => "null"
    case Bool(b) => if b then "true" else "false"
    case Int(n) => Signed(n)
    case Str(s) => Quote(s)
    case Arr(items) => if items == [] then "[]" else "[" + PrintItems(items)
    case Obj(fields) => if fields == map[] then "{}" else "{" + PrintMembers(j, SortedKeys(fields.Keys))
  }

  /** The items of a non-empty list, with the bracket that closes it. */
  function PrintItems(items: seq<Json>): string
    requires items != []
    decreases items, 0, 0
  {
    Print(items[0]) + if |items| == 1 then "]" else "," + PrintItems(items[1..])
  }

  /** The members of a dictionary under `keys`, with the brace that closes it. */
  function PrintMembers(j: Json, keys: seq<string>): string
    requires j.Obj? && keys != [] && forall k :: k in keys ==> k in j.fields
    decreases j, 0, |keys|
  {
    Quote(keys[0]) + ":" + Print(j.fields[keys[0]])
    + if |keys| == 1 then "}" else "," + PrintMembers(j, keys[1..])
  }

  // ----------------------------------------------------------------- reading

  /** One character of a string literal: its value and how many characters it takes. */
  function ReadChar(s: string): (r: Option<(char, nat)>)
    ensures r.Some? ==> 1 <= r.value.1 <= |s|
  {
    if s == "" || s[0] as int < 32 || s[0] == '\"' then None
    else if s[0] != '\\' then Some((s[0], 1))
    else if |s| == 1 then None
    else if s[1] in "\"\\/" then Some((s[1], 2))
    else if s[1] == 'n' then Some(('\n', 2))
    else if s[1] == 'r' then Some(('\r', 2))
    else if s[1] == 't' then Some(('\t', 2))
    else if s[1] == 'b' then Some((8 as char, 2))
    else if s[1] == 'f' then Some((12 as char, 2))
    else if s[1] == 'u' && |s| >= 6 then
      var a :- HexValue(s[2]);
      var b :- HexValue(s[3]);
      var c :- HexValue(s[4]);
      var d :- HexValue(s[5]);
      var n := a * 4096 + b * 256 + c * 16 + d;
      if IsScalar(n) then Some((n as char, 6)) else None
    else None
  }

  /** A string literal after its opening quote: its value and the text after its closing quote. */
  function ReadString(s: string): (r: Option<(string, string)>)
    ensures r.Some? ==> |r.value.1| < |s|
    decreases |s|
  {
    if s != "" && s[0] == '\"' then Some(("", s[1..]))
    else
      var (c, n) :- ReadChar(s);
      var (rest, after) :- ReadString(s[n..]);
      Some(([c] + rest, after))
  }

  /** An unsigned integer; a leading zero stands alone. */
  function ReadNat(s: string): (r: Option<(nat, string)>)
    ensures r.Some? ==> |r.value.1| < |s|
  {
    var k := DigitRun(s);
    if k == 0 || (k > 1 && s[0] == '0') then None else Some((DecimalValue(s[..k]), s[k..]))
  }

  function After(s: string, p: string): (r: Option<string>)
    ensures r.Some? ==> |p| <= |s| && s[..|p|] == p && r.value == s[|p|..]
  {
    if p <= s then Some(s[|p|..]) else None
  }

  /** Read one value from the front of `s`: the compact texts of integers, strings, constants,
      lists and dictionaries, as `json.loads` reads them. */
  function Read(s: string): (r: Option<(Json, string)>)
    ensures r.Some? ==> |r.value.1| < |s|
    decreases |s|, 1
  {
    if s == "" then None
    else if s[0] == 'n' then
      var rest :- After(s, "null");
      Some((Null, rest))
    else if s[0] == 't' then
      var rest :- After(s, "true");
      Some((Bool(true), rest))
    else if s[0] == 'f' then
      var rest :- After(s, "false");
      Some((Bool(false), rest))
    else if s[0] == '\"' then
      var (t, rest) :- ReadString(s[1..]);
      Some((Str(t), rest))
    else if s[0] == '[' then
      if |s| > 1 && s[1] == ']' then Some((Arr([]), s[2..]))
      else
        var (items, rest) :- ReadItems(s[1..]);
        Some((Arr(items), rest))
    else if s[0] == '{' then
      if |s| > 1 && s[1] == '}' then Some((Obj(map[]), s[2..]))
      else
        var (fields, rest) :- ReadMembers(s[1..]);
        Some((Obj(fields), rest))
    else if s[0] == '-' then
      var (n, rest) :- ReadNat(s[1..]);
      Some((Int(0 - n as int), rest))
    else
      var (n, rest) :- ReadNat(s);
      Some((Int(n), rest))
  }

  function ReadItems(s: string): (r: Option<(seq<Json>, string)>)
    ensures r.Some? ==> |r.value.1| < |s|
    decreases |s|, 2
  {
    var (item, rest) :- Read(s);
    if rest != "" && rest[0] == ']' then Some(([item], rest[1..]))
    else if rest != "" && rest[0] == ',' then
      var (items, after) :- ReadItems(rest[1..]);
      Some(([item] + items, after))
    else None
  }

  /** When a key occurs twice the later member wins. */
  function ReadMembers(s: string): (r: Option<(map<string, Json>, string)>)
    ensures r.Some? ==> |r.value.1| < |s|
    decreases |s|, 2
  {
    if s == "" || s[0] != '\"' then None
    else
      var (key, colon) :- ReadString(s[1..]);
      if colon == "" || colon[0] != ':' then None
      else
        var (value, rest) :- Read(colon[1..]);
        if rest != "" && rest[0] == '}' then Some((map[key := value], rest[1..]))
        else if rest != "" && rest[0] == ',' then
          var (fields, after) :- ReadMembers(rest[1..]);
          Some((map[key := value] + fields, after))
        else None
  }

  /** `json.loads` on a whole text. */
  function Loads(s: string): Option<Json> {
    var (j, rest) :- Read(s);
    if rest == "" then Some(j) else None
  }

  // ---------------------------------------------------------- the round trip

  /** What may follow a value inside a larger text: integers are not self-delimiting. */
  predicate Delimited(rest: string) {
    rest == "" || rest[0] in ",]}:"
  }

  lemma ReadCharEscapes(c: char, rest: string)
    ensures ReadChar(EscapeChar(c) + rest) == Some((c, |EscapeChar(c)|))
  {
    var n := c as int;
    var e := EscapeChar(c);
    var s := e + rest;
    assert forall i :: 0 <= i < |e| ==> s[i] == e[i];
    if n < 32 && c != '\n' && c != '\r' && c != '\t' && n != 8 && n != 12 {
      assert s[1] == 'u' && s[2] == '0' && s[3] == '0';
      assert n / 16 * 16 + n % 16 == n;
      assert HexValue(s[4]) == Some(n / 16) && HexValue(s[5]) == Some(n % 16);
    }
  }

  lemma ReadStringEnd(rest: string)
    ensures ReadString("\"" + rest) == Some(("", rest))
  {
    assert ("\"" + rest)[1..] == rest;
  }

  lemma ReadStringStep(c: char, tail: string, s: string, rest: string)
    requires ReadString(tail) == Some((s, rest))
    ensures ReadString(EscapeChar(c) + tail) == Some(([c] + s, rest))
  {
    hide EscapeChar, ReadChar;
    var e := EscapeChar(c);
    ReadCharEscapes(c, tail);
    assert (e + tail)[|e|..] == tail;
    assert (e + tail)[0] == e[0];
  }

  lemma {:induction false} ReadStringQuotes(s: string, rest: string)
    ensures ReadString(Escape(s) + "\"" + rest) == Some((s, rest))
  {
    hide EscapeChar, ReadString;
    if s == "" {
      assert Escape(s) + "\"" + rest == "\"" + rest;
      ReadStringEnd(rest);
    } else {
      var tail := Escape(s[1..]) + "\"" + rest;
      assert Escape(s) + "\"" + rest == EscapeChar(s[0]) + tail;
      ReadStringQuotes(s[1..], rest);
      ReadStringStep(s[0], tail, s[1..], rest);
      assert s == [s[0]] + s[1..];
    }
  }

  lemma ReadNatPrints(n: nat, rest: string)
    requires Delimited(rest)
    ensures ReadNat(Decimal(n) + rest) == Some((n, rest))
  {
    var d := Decimal(n);
    DigitRunOfDecimal(n, rest);
    assert (d + rest)[..|d|] == d && (d + rest)[|d|..] == rest;
    assert (d + rest)[0] == d[0];
    DecimalRoundTrip(n);
  }

  lemma ReadIntPrints(n: int, rest: string)
    requires Delimited(rest)
    ensures Read(Print(Int(n)) + rest) == Some((Int(n), rest))
  {
    hide Decimal, ReadNat, ReadItems, ReadMembers, ReadString;
    var s := Signed(n) + rest;
    assert Print(Int(n)) == Signed(n);
    if n < 0 {
      assert s[0] == '-' && s[1..] == Decimal(-n) + rest;
      ReadNatPrints(-n, rest);
    } else {
      assert s[0] == Decimal(n)[0] && IsDigit(s[0]);
      ReadNatPrints(n, rest);
    }
  }

  lemma ReadConstant(j: Json, rest: string)
    requires j.Null? || j.Bool?
    ensures Read(Print(j) + rest) == Some((j, rest))
  {
    var p := Print(j);
    var s := p + rest;
    assert s[..|p|] == p && s[|p|..] == rest;
    assert s[0] == p[0] && p <= s;
  }

  /** A value and the text after it can always be told apart again. */
  lemma {:induction false} ReadPrints(j: Json, rest: string)
    requires Delimited(rest)
    ensures Read(Print(j) + rest) == Some((j, rest))
    decreases j, 1, 0
  {
    hide Read, Print, PrintItems, PrintMembers, Under, StrLe, ReadItems, ReadMembers;
    match j
    case Null => ReadConstant(j, rest);
    case Bool(_) => ReadConstant(j, rest);
    case Int(n) => ReadIntPrints(n, rest);
    case Str(t) => ReadStrPrints(t, rest);
    case Arr(items) =>
      if items == [] {
        ReadEmptyPrints(j, rest);
      } else {
        ReadItemsPrints(items, rest);
        ReadArrPrints(items, rest);
      }
    case Obj(fields) =>
      if fields == map[] {
        ReadEmptyPrints(j, rest);
      } else {
        var keys := SortedKeys(fields.Keys);
        assert |keys| > 0;
        ReadMembersPrints(j, keys, rest);
        UnderAll(fields, keys);
        ReadObjPrints(fields, rest);
      }
  }

  lemma UnderAll(fields: map<string, Json>, keys: seq<string>)
    requires forall k :: k in keys <==> k in fields
    ensures Under(fields, keys) == fields
  {
  }

  lemma ReadEmptyPrints(j: Json, rest: string)
    requires j == Arr([]) || j == Obj(map[])
    ensures Read(Print(j) + rest) == Some((j, rest))
  {
    var s := Print(j) + rest;
    assert s[2..] == rest;
  }

  lemma ReadStrPrints(t: string, rest: string)
    ensures Read(Print(Str(t)) + rest) == Some((Str(t), rest))
  {
    hide ReadString, Escape;
    var s := Print(Str(t)) + rest;
    assert s[1..] == Escape(t) + "\"" + rest;
    ReadStringQuotes(t, rest);
  }

  lemma ReadArrPrints(items: seq<Json>, rest: string)
    requires items != [] && ReadItems(PrintItems(items) + rest) == Some((items, rest))
    ensures Read(Print(Arr(items)) + rest) == Some((Arr(items), rest))
  {
    hide PrintItems, ReadItems;
    var s := Print(Arr(items)) + rest;
    assert s[1..] == PrintItems(items) + rest;
    FirstOfItems(items);
    assert s[1] == PrintItems(items)[0];
  }

  lemma ReadObjPrints(fields: map<string, Json>, rest: string)
    requires fields != map[]
    requires ReadMembers(PrintMembers(Obj(fields), SortedKeys(fields.Keys)) + rest) == Some((fields, rest))
    ensures Read(Print(Obj(fields)) + rest) == Some((Obj(fields), rest))
  {
    hide PrintMembers, ReadMembers;
    var members := PrintMembers(Obj(fields), SortedKeys(fields.Keys));
    var s := Print(Obj(fields)) + rest;
    assert s[1..] == members + rest;
    FirstOfMembers(Obj(fields), SortedKeys(fields.Keys));
    assert s[1] == members[0];
  }

  /** No value starts with a closing bracket. */
  lemma FirstOfValue(j: Json)
    ensures Print(j) != "" && Print(j)[0] != ']'
  {
  }

  lemma FirstOfItems(items: seq<Json>)
    requires items != []
    ensures PrintItems(items) != "" && PrintItems(items)[0] != ']'
  {
    FirstOfValue(items[0]);
  }

  lemma FirstOfMembers(j: Json, keys: seq<string>)
    requires j.Obj? && keys != [] && forall k :: k in keys ==> k in j.fields
    ensures PrintMembers(j, keys) != "" && PrintMembers(j, keys)[0] == '\"'
  {
  }

  /** The text after the first item. */
  function MoreItems(items: seq<Json>, rest: string): (s: string)
    requires items != []
    ensures s != "" && s[0] == (if |items| == 1 then ']' else ',')
    ensures s[1..] == if |items| == 1 then rest else PrintItems(items[1..]) + rest
  {
    if |items| == 1 then "]" + rest else "," + (PrintItems(items[1..]) + rest)
  }

  lemma Reassociate(a: string, b: string, c: string)
    ensures (a + b) + c == a + (b + c)
  {
  }

  lemma ItemsText(items: seq<Json>, rest: string)
    requires items != []
    ensures PrintItems(items) + rest == Print(items[0]) + MoreItems(items, rest)
  {
    hide Print;
    if |items| == 1 {
      Reassociate(Print(items[0]), "]", rest);
    } else {
      Reassociate(Print(items[0]), "," + PrintItems(items[1..]), rest);
      Reassociate(",", PrintItems(items[1..]), rest);
    }
  }

  lemma ReadOneItem(text: string, item: Json, more: string)
    requires Read(text + more) == Some((item, more))
    requires more != "" && more[0] in ",]"
    ensures ReadItems(text + more)
         == if more[0] == ']' then Some(([item], more[1..]))
            else if ReadItems(more[1..]).None? then None
            else Some(([item] + ReadItems(more[1..]).value.0, ReadItems(more[1..]).value.1))
  {
    hide Read;
  }

  lemma {:induction false} ReadItemsPrints(items: seq<Json>, rest: string)
    requires items != []
    ensures ReadItems(PrintItems(items) + rest) == Some((items, rest))
    decreases items, 0, 0
  {
    hide Print, Read, ReadItems, PrintItems;
    var more := MoreItems(items, rest);
    ItemsText(items, rest);
    ReadPrints(items[0], more);
    ReadOneItem(Print(items[0]), items[0], more);
    assert items == [items[0]] + items[1..];
    if |items| > 1 {
      ReadItemsPrints(items[1..], rest);
    } else {
      assert items == [items[0]];
    }
  }

  /** The dictionary restricted to some of its keys. */
  function Under(fields: map<string, Json>, keys: seq<string>): map<string, Json> {
    map k | k in keys && k in fields :: fields[k]
  }

  lemma {:induction false} ReadMembersPrints(j: Json, keys: seq<string>, rest: string)
    requires j.Obj? && keys != [] && (forall k :: k in keys ==> k in j.fields) && StrictlySorted(keys)
    ensures ReadMembers(PrintMembers(j, keys) + rest) == Some((Under(j.fields, keys), rest))
    decreases j, 0, |keys|
  {
    hide Print, ReadMembers, Quote, StrLe, Under, StrictlySorted, PrintMembers;
    var key, value := keys[0], j.fields[keys[0]];
    var more := MoreMembers(j, keys, rest);
    MembersText(j, keys, rest);
    ReadPrints(value, more);
    ReadOneMember(key, Print(value), value, more);
    UnderTail(j.fields, keys);
    if |keys| > 1 {
      ReadMembersPrints(j, keys[1..], rest);
    }
  }

  /** The text after the first member. */
  function MoreMembers(j: Json, keys: seq<string>, rest: string): (s: string)
    requires j.Obj? && keys != [] && forall k :: k in keys ==> k in j.fields
    ensures s != "" && s[0] == (if |keys| == 1 then '}' else ',')
    ensures s[1..] == if |keys| == 1 then rest else PrintMembers(j, keys[1..]) + rest
  {
    if |keys| == 1 then "}" + rest else "," + (PrintMembers(j, keys[1..]) + rest)
  }

  lemma MembersText(j: Json, keys: seq<string>, rest: string)
    requires j.Obj? && keys != [] && forall k :: k in keys ==> k in j.fields
    ensures PrintMembers(j, keys) + rest
         == Quote(keys[0]) + (":" + (Print(j.fields[keys[0]]) + MoreMembers(j, keys, rest)))
  {
    hide Print, Quote;
    var q, v := Quote(keys[0]), Print(j.fields[keys[0]]);
    var t := if |keys| == 1 then "}" else "," + PrintMembers(j, keys[1..]);
    Reassociate((q + ":") + v, t, rest);
    Reassociate(q + ":", v, t + rest);
    Reassociate(q, ":", v + (t + rest));
    if |keys| > 1 {
      Reassociate(",", PrintMembers(j, keys[1..]), rest);
    }
  }

  lemma UnderTail(fields: map<string, Json>, keys: seq<string>)
    requires keys != [] && (forall k :: k in keys ==> k in fields) && StrictlySorted(keys)
    ensures StrictlySorted(keys[1..]) && forall k :: k in keys[1..] ==> k in fields
    ensures Under(fields, keys) == map[keys[0] := fields[keys[0]]] + Under(fields, keys[1..])
    ensures |keys| == 1 ==> Under(fields, keys) == map[keys[0] := fields[keys[0]]]
  {
    hide StrLe;
    TailHolds(keys);
  }

  lemma ReadOneMember(key: string, text: string, value: Json, more: string)
    requires Read(text + more) == Some((value, more))
    requires more != "" && more[0] in ",}"
    ensures ReadMembers(Quote(key) + (":" + (text + more)))
         == if more[0] == '}' then Some((map[key := value], more[1..]))
            else if ReadMembers(more[1..]).None? then None
            else Some((map[key := value] + ReadMembers(more[1..]).value.0, ReadMembers(more[1..]).value.1))
  {
    hide Read, ReadString, Escape;
    var colon := ":" + (text + more);
    var s := Quote(key) + colon;
    assert s[1..] == Escape(key) + "\"" + colon;
    ReadStringQuotes(key, colon);
    assert colon[1..] == text + more;
  }

  /** Reading inverts printing. */
  lemma LoadsPrints(j: Json)
    ensures Loads(Print(j)) == Some(j)
  {
    hide Print, Read;
    ReadPrints(j, "");
    assert Print(j) + "" == Print(j);
  }

  /** Equal texts followed by delimiter-led suffixes come from equal values and equal suffixes. */
  lemma PrintIsPrefixInjective(j: Json, k: Json, x: string, y: string)
    requires Delimited(x) && Delimited(y)
    requires Print(j) + x == Print(k) + y
    ensures j == k && x == y
  {
    hide Print, Read;
    ReadPrints(j, x);
    ReadPrints(k, y);
  }
}
