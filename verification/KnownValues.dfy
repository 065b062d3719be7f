/** Encodings at known values: the golden vectors of the repository, and those of the standards it
    implements. A change of encoding that kept every round trip would still break every signature. */
module KnownValues {
  import opened ByteStrings
  import opened JsonText
  import opened Canonical
  import opened Merkle
  import opened Envelope

  // ---------------------------------------------------------------- canonical JSON

  /** The golden texts of canonical JSON: no spaces, keys in order, constants in lower case. */
  lemma GoldenTexts(fields: map<string, Json>)
    requires fields.Keys == {"b", "a"} && fields["b"] == Int(1) && fields["a"] == Arr([Bool(true), Null, Str("x")])
    ensures Print(Obj(map[])) == "{}"
    ensures Print(Obj(fields)) == "{" + ("\"a\":" + ("[true,null,\"x\"]" + ("," + "\"b\":1}")))
  {
    hide Quote, PrintItems;
    assert "a" in fields;
    TwoKeys(fields.Keys);
    GoldenItems();
    OneLetter('a');
    OneLetter('b');
    var keys := ["a", "b"];
    assert SortedKeys(fields.Keys) == keys && keys[1..] == ["b"];
    LastMember(Obj(fields));
    Grouped("{", Quote("a"), ":", Print(fields["a"]), ",", PrintMembers(Obj(fields), ["b"]));
    assert Quote("a") + ":" == "\"a\":";
  }

  lemma Grouped(a: string, b: string, c: string, d: string, e: string, f: string)
    ensures a + (b + c + d + (e + f)) == a + ((b + c) + (d + (e + f)))
  {
  }

  lemma LastMember(j: Json)
    requires j.Obj? && "b" in j.fields && j.fields["b"] == Int(1)
    ensures PrintMembers(j, ["b"]) == "\"b\":1}"
  {
    hide Quote;
    OneLetter('b');
    assert Print(Int(1)) == "1";
  }

  lemma TwoKeys(ks: set<string>)
    requires ks == {"b", "a"}
    ensures SortedKeys(ks) == ["a", "b"]
  {
    assert StrictlySorted(["a", "b"]);
    assert forall k :: k in ["a", "b"] <==> k in ks;
    SortedIsUnique(SortedKeys(ks), ["a", "b"]);
  }

  lemma OneLetter(c: char)
    requires 'a' <= c <= 'z'
    ensures Quote([c]) == "\"" + [c] + "\""
  {
    assert [c][1..] == "" && [c][0] == c;
    assert EscapeChar(c) == [c];
    assert Escape([c]) == [c] + Escape("") == [c];
  }

  lemma GoldenItems()
    ensures Print(Arr([Bool(true), Null, Str("x")])) == "[true,null,\"x\"]"
  {
    OneLetter('x');
    assert [Bool(true), Null, Str("x")][1..] == [Null, Str("x")] && [Null, Str("x")][1..] == [Str("x")];
    assert PrintItems([Str("x")]) == "\"x\"]";
    assert PrintItems([Null, Str("x")]) == "null,\"x\"]";
  }

  // ------------------------------------------------------------------ Merkle trees

  /** Trees of up to three leaves, as section 2.1 of RFC 6962 defines them: a zero byte before a leaf, a
      one before two nodes, and the larger complete tree on the left. */
  lemma SmallTrees(H: Hash, a: string, b: string, c: string)
    ensures MerkleRoot(H, []) == "sha256:" + ToHex(H([]))
    ensures MerkleRoot(H, [a]) == "sha256:" + ToHex(H([0] + Utf8(a)))
    ensures MerkleRoot(H, [a, b]) == "sha256:" + ToHex(H([1] + H([0] + Utf8(a)) + H([0] + Utf8(b))))
    ensures MerkleRoot(H, [a, b, c])
         == "sha256:" + ToHex(H([1] + H([1] + H([0] + Utf8(a)) + H([0] + Utf8(b))) + H([0] + Utf8(c))))
  {
    hide Utf8, ToHex;
    var x, y, z := LeafHash(H, a), LeafHash(H, b), LeafHash(H, c);
    assert LeafHashes(H, []) == [] && LeafHashes(H, [a]) == [x] && LeafHashes(H, [a, b]) == [x, y] && LeafHashes(H, [a, b, c]) == [x, y, z];
    assert [x, y][..1] == [x] && [x, y][1..] == [y];
    assert Root(H, [x, y]) == Node(H, x, y);
    assert Split(2) == 1 && Split(3) == 2;
    assert [x, y, z][..2] == [x, y] && [x, y, z][2..] == [z];
    assert Root(H, [x, y, z]) == Node(H, Root(H, [x, y]), Root(H, [z]));
  }

  // ------------------------------------------------------------------------ base64

  /** The vectors of section 10 of RFC 4648, and the last two letters of its alphabet. */
  lemma Base64Vectors()
    ensures Base64([]) == "" && Base64([102]) == "Zg==" && Base64([102, 111]) == "Zm8=" && Base64([102, 111, 111]) == "Zm9v"
    ensures Base64([102, 111, 111, 98, 97, 114]) == "Zm9v" + "YmFy"
    ensures Base64([251, 255, 254]) == "+//+"
  {
    hide Base64;
    Base64Of(102, 111, 111, []);
    Base64Of(102, 111, 111, [98, 97, 114]);
    Base64Of(98, 97, 114, []);
    Base64Of(251, 255, 254, []);
    ShortVectors();
    assert [102, 111, 111] + [98, 97, 114] == [102, 111, 111, 98, 97, 114];
    assert [102, 111, 111] + [] == [102, 111, 111] && [98, 97, 114] + [] == [98, 97, 114] && [251, 255, 254] + [] == [251, 255, 254];
    assert "Zm9v" + "" == "Zm9v" && "YmFy" + "" == "YmFy" && "+//+" + "" == "+//+";
  }

  lemma Base64Of(a: Byte, b: Byte, c: Byte, rest: Bytes)
    ensures Base64([a, b, c] + rest)
         == [SextetChar(a / 4), SextetChar(a % 4 * 16 + b / 16), SextetChar(b % 16 * 4 + c / 64), SextetChar(c % 64)] + Base64(rest)
  {
    hide SextetChar;
    assert ([a, b, c] + rest)[3..] == rest;
  }

  lemma ShortVectors()
    ensures Base64([]) == "" && Base64([102]) == "Zg==" && Base64([102, 111]) == "Zm8="
  {
  }

  // ----------------------------------------------------- the pre-authentication encoding

  /** The encoding of the DSSE protocol, version 1, as one text before the body. */
  lemma PaeIsText(name: string, body: Bytes)
    ensures Pae(name, body) == Utf8("DSSEv1 " + Decimal(|name|) + " " + name + " " + Decimal(|body|) + " ") + body
  {
    hide Utf8, Decimal;
    var v, n, m := "DSSEv1", Decimal(|name|), Decimal(|body|);
    Utf8Spaced(m, "");
    Utf8Spaced(name, m + " " + "");
    Utf8Spaced(n, name + " " + (m + " " + ""));
    Utf8Spaced(v, n + " " + (name + " " + (m + " " + "")));
    NoBytes();
    TextsJoin(v, n, name, m);
    BytesJoin(Utf8(v), Utf8(n), Utf8(name), Utf8(m), body);
    assert v + " " == "DSSEv1 ";
  }

  lemma TextsJoin(v: string, n: string, name: string, m: string)
    ensures v + " " + (n + " " + (name + " " + (m + " " + ""))) == v + " " + n + " " + name + " " + m + " "
  {
  }

  lemma BytesJoin(v: Bytes, n: Bytes, name: Bytes, m: Bytes, body: Bytes)
    ensures v + (SPACE + (n + (SPACE + (name + (SPACE + (m + (SPACE + body)))))))
         == v + (SPACE + (n + (SPACE + (name + (SPACE + (m + (SPACE + []))))))) + body
  {
  }

  lemma NoBytes()
    ensures Utf8("") == []
  {
  }

  lemma {:induction false} Utf8Concat(a: string, b: string)
    ensures Utf8(a + b) == Utf8(a) + Utf8(b)
  {
    hide EncodeChar;
    if a == "" {
      assert a + b == b;
    } else {
      assert (a + b)[0] == a[0] && (a + b)[1..] == a[1..] + b;
      Utf8Concat(a[1..], b);
    }
  }

  lemma Utf8Spaced(a: string, b: string)
    ensures Utf8(a + " " + b) == Utf8(a) + (SPACE + Utf8(b))
  {
    hide Utf8;
    Utf8Concat(a, " " + b);
    Utf8Concat(" ", b);
    assert a + " " + b == a + (" " + b);
    OneSpace();
  }

  lemma OneSpace()
    ensures Utf8(" ") == SPACE
  {
    assert " "[1..] == "";
  }
}
