/** Tag-length-value data in the distinguished encoding of X.690, read with the limits of Go's
    encoding/asn1: tags and object-identifier arcs up to 2^31 - 1, lengths below 2^31. */
module Der {
  import opened Data

  const MAX_INT: nat := 0x7fff_ffff
  const LONG_TAG: Byte := 31
  const CONTEXT: nat := 2
  const OCTET_STRING: nat := 4
  const OBJECT_IDENTIFIER: nat := 6
  const SEQUENCE: nat := 16
  const SET: nat := 17

  datatype Tlv = Tlv(cls: nat, compound: bool, tag: nat, body: Bytes)

  predicate Encodable(v: Tlv) {
    v.cls < 4 && v.tag <= MAX_INT && |v.body| <= MAX_INT
  }

  // ----- base-128 integers -----

  /** Seven-bit groups, all marked as continued. */
  function Groups(n: nat): Bytes {
    if n == 0 then [] else Groups(n / 128) + [128 + n % 128]
  }

  function Base128(n: nat): Bytes {
    Groups(n / 128) + [n % 128]
  }

  function ReadBase128(bs: Bytes, acc: nat, shifted: nat): Option<(nat, Bytes)> {
    if bs == [] || shifted >= 5 || (shifted == 0 && bs[0] == 128) then None
    else
      var n := acc * 128 + bs[0] % 128;
      if bs[0] >= 128 then ReadBase128(bs[1..], n, shifted + 1)
      else if n > MAX_INT then None
      else Some((n, bs[1..]))
  }

  lemma {:induction false} GroupsLength(n: nat, k: nat)
    requires (k == 0 && n == 0) || (k == 1 && n < 128) || (k == 2 && n < 0x4000) || (k == 3 && n < 0x20_0000)
        || (k == 4 && n < 0x1000_0000)
    ensures |Groups(n)| <= k
  {
    if n > 0 { GroupsLength(n / 128, k - 1); }
  }

  lemma Shift128(acc: nat, low: nat)
    requires low < 128
    ensures (acc * 128 + low) / 128 == acc && (acc * 128 + low) % 128 == low
  {
  }

  /** One more continued byte behind the groups of `acc`. */
  lemma {:induction false} GroupsSnoc(acc: nat, b: Byte)
    requires b >= 128 && acc * 128 + b - 128 > 0
    ensures Groups(acc * 128 + b - 128) == Groups(acc) + [b]
  {
    Shift128(acc, b - 128);
  }

  lemma {:induction false} Base128Snoc(acc: nat, b: Byte)
    requires b < 128
    ensures Base128(acc * 128 + b) == Groups(acc) + [b]
  {
    Shift128(acc, b);
  }

  lemma {:induction false} NoGroups()
    ensures Groups(0) == []
  {
  }

  /** One byte is read. */
  lemma {:induction false} ReadOne(b: Byte, more: Bytes, acc: nat, shifted: nat)
    requires shifted < 5 && !(shifted == 0 && b == 128)
    ensures ReadBase128([b] + more, acc, shifted) ==
      if b >= 128 then ReadBase128(more, acc * 128 + b - 128, shifted + 1)
      else if acc * 128 + b > MAX_INT then None
      else Some((acc * 128 + b, more))
  {
    assert ([b] + more)[1..] == more;
  }

  lemma {:induction false} ReadGroups(n: nat, more: Bytes)
    requires n < 0x1000_0000
    ensures |Groups(n)| <= 4 && (n > 0 ==> |Groups(n)| > 0)
    ensures ReadBase128(Groups(n) + more, 0, 0) == ReadBase128(more, n, |Groups(n)|)
  {
    hide ReadBase128, Groups;
    GroupsLength(n, 4);
    NoGroups();
    if n == 0 {
      assert Groups(n) + more == more;
    } else {
      var acc, b := n / 128, 128 + n % 128;
      GroupsSnoc(acc, b);
      ReadGroups(acc, [b] + more);
      GroupsLength(acc, 3);
      assert Groups(n) + more == Groups(acc) + ([b] + more);
      ReadOne(b, more, acc, |Groups(acc)|);
    }
  }

  lemma {:induction false} GroupsRead(bs: Bytes, acc: nat, shifted: nat)
    requires (shifted == 0 <==> acc == 0) && ReadBase128(bs, acc, shifted).Some?
    ensures var (n, rest) := ReadBase128(bs, acc, shifted).value;
      n <= MAX_INT && Groups(acc) + bs == Base128(n) + rest
  {
    hide Groups, Base128;
    var b, more := bs[0], bs[1..];
    assert bs == [b] + more;
    ReadOne(b, more, acc, shifted);
    hide ReadBase128;
    if b >= 128 {
      GroupsSnoc(acc, b);
      GroupsRead(more, acc * 128 + b - 128, shifted + 1);
      assert Groups(acc) + bs == Groups(acc * 128 + b - 128) + more;
    } else {
      Base128Snoc(acc, b);
      assert Groups(acc) + bs == Base128(acc * 128 + b) + more;
    }
  }

  /** A number has one encoding, the shortest, and that is the only one accepted. */
  lemma {:induction false} Base128Iff(bs: Bytes, n: nat, rest: Bytes)
    ensures ReadBase128(bs, 0, 0) == Some((n, rest)) <==> n <= MAX_INT && bs == Base128(n) + rest
  {
    hide ReadBase128, Groups;
    NoGroups();
    if n <= MAX_INT && bs == Base128(n) + rest {
      ReadGroups(n / 128, [n % 128] + rest);
      assert bs == Groups(n / 128) + ([n % 128] + rest);
      ReadOne(n % 128, rest, n / 128, |Groups(n / 128)|);
    }
    if ReadBase128(bs, 0, 0) == Some((n, rest)) {
      GroupsRead(bs, 0, 0);
      assert Groups(0) + bs == bs;
    }
  }

  // ----- lengths -----

  function BigEndian(n: nat): Bytes {
    if n == 0 then [] else BigEndian(n / 256) + [n % 256]
  }

  lemma {:induction false} BigEndianLength(n: nat)
    ensures n < 256 ==> |BigEndian(n)| <= 1
    ensures n < 0x1_0000 ==> |BigEndian(n)| <= 2
    ensures n < 0x100_0000 ==> |BigEndian(n)| <= 3
    ensures n <= MAX_INT ==> |BigEndian(n)| <= 4
    ensures n > 0 ==> |BigEndian(n)| > 0
  {
    if n > 0 { BigEndianLength(n / 256); }
  }

  function LengthBytes(n: nat): Bytes
    requires n <= MAX_INT
  {
    BigEndianLength(n);
    if n < 128 then [n] else [128 + |BigEndian(n)|] + BigEndian(n)
  }

  lemma Digits256(n: nat)
    ensures n / 256 / 256 == n / 0x1_0000 && n / 0x1_0000 / 256 == n / 0x100_0000
  {
  }

  lemma {:induction false} BigEndianForms(n: nat)
    requires 0 < n <= MAX_INT
    ensures BigEndian(n) ==
      if n < 256 then [n]
      else if n < 0x1_0000 then [n / 256, n % 256]
      else if n < 0x100_0000 then [n / 0x1_0000, n / 256 % 256, n % 256]
      else [n / 0x100_0000, n / 0x1_0000 % 256, n / 256 % 256, n % 256]
  {
    Digits256(n);
    var a, b, c := n / 256, n / 0x1_0000, n / 0x100_0000;
    assert BigEndian(n) == BigEndian(a) + [n % 256];
    assert a > 0 ==> BigEndian(a) == BigEndian(b) + [a % 256];
    assert b > 0 ==> BigEndian(b) == BigEndian(c) + [b % 256];
    assert c > 0 ==> BigEndian(c) == [c];
  }

  /** The length octets of section 8.1.3 of X.690, written out. */
  lemma LengthForms(n: nat)
    requires n <= MAX_INT
    ensures LengthBytes(n) ==
      if n < 128 then [n]
      else if n < 256 then [0x81, n]
      else if n < 0x1_0000 then [0x82, n / 256, n % 256]
      else if n < 0x100_0000 then [0x83, n / 0x1_0000, n / 256 % 256, n % 256]
      else [0x84, n / 0x100_0000, n / 0x1_0000 % 256, n / 256 % 256, n % 256]
  {
    hide BigEndian;
    if n > 0 { BigEndianForms(n); }
  }

  function ReadBigEndian(bs: Bytes, count: nat, acc: nat): Option<(nat, Bytes)> {
    if count == 0 then Some((acc, bs))
    else if bs == [] || acc >= 0x80_0000 then None
    else
      var n := acc * 256 + bs[0];
      if n == 0 then None else ReadBigEndian(bs[1..], count - 1, n)
  }

  function ReadLength(bs: Bytes): Option<(nat, Bytes)> {
    if bs == [] then None
    else if bs[0] < 128 then Some((bs[0], bs[1..]))
    else if bs[0] == 128 then None
    else
      var r := ReadBigEndian(bs[1..], bs[0] - 128, 0);
      if r.Some? && r.value.0 < 128 then None else r
  }

  lemma Shift256(acc: nat, low: nat)
    requires low < 256
    ensures (acc * 256 + low) / 256 == acc && (acc * 256 + low) % 256 == low
  {
  }

  lemma {:induction false} BigEndianSnoc(acc: nat, b: Byte)
    requires acc * 256 + b > 0
    ensures BigEndian(acc * 256 + b) == BigEndian(acc) + [b]
  {
    Shift256(acc, b);
  }

  lemma {:induction false} NoDigits()
    ensures BigEndian(0) == []
  {
  }

  lemma {:induction false} ReadDigit(b: Byte, more: Bytes, k: nat, acc: nat)
    requires acc < 0x80_0000 && acc * 256 + b > 0
    ensures ReadBigEndian([b] + more, k + 1, acc) == ReadBigEndian(more, k, acc * 256 + b)
  {
    assert ([b] + more)[1..] == more;
  }

  lemma {:induction false} ReadDigits(n: nat, more: Bytes, k: nat)
    requires n <= MAX_INT
    ensures ReadBigEndian(BigEndian(n) + more, |BigEndian(n)| + k, 0) == ReadBigEndian(more, k, n)
  {
    hide ReadBigEndian, BigEndian;
    NoDigits();
    if n == 0 {
      assert BigEndian(n) + more == more;
    } else {
      var acc, b := n / 256, n % 256;
      BigEndianSnoc(acc, b);
      ReadDigits(acc, [b] + more, k + 1);
      assert BigEndian(n) + more == BigEndian(acc) + ([b] + more);
      ReadDigit(b, more, k, acc);
    }
  }

  lemma {:induction false} DigitsRead(bs: Bytes, count: nat, acc: nat)
    requires ReadBigEndian(bs, count, acc).Some? && acc <= MAX_INT
    ensures var (n, rest) := ReadBigEndian(bs, count, acc).value;
      n <= MAX_INT && BigEndian(acc) + bs == BigEndian(n) + rest && |BigEndian(n)| == |BigEndian(acc)| + count
  {
    hide BigEndian;
    if count > 0 {
      var b, more := bs[0], bs[1..];
      BigEndianSnoc(acc, b);
      DigitsRead(more, count - 1, acc * 256 + b);
      assert bs == [b] + more;
      assert BigEndian(acc) + bs == BigEndian(acc * 256 + b) + more;
    }
  }

  lemma LengthRead(n: nat, rest: Bytes)
    requires n <= MAX_INT
    ensures ReadLength(LengthBytes(n) + rest) == Some((n, rest))
  {
    hide ReadBigEndian, BigEndian;
    var bs := LengthBytes(n) + rest;
    if n >= 128 {
      BigEndianLength(n);
      ReadDigits(n, rest, 0);
      assert bs[1..] == BigEndian(n) + rest;
      assert ReadBigEndian(rest, 0, n) == Some((n, rest)) by { NothingLeft(rest, n); }
    } else {
      assert bs[1..] == rest;
    }
  }

  lemma {:induction false} NothingLeft(rest: Bytes, n: nat)
    ensures ReadBigEndian(rest, 0, n) == Some((n, rest))
  {
  }

  lemma LengthWritten(bs: Bytes)
    requires ReadLength(bs).Some?
    ensures var (n, rest) := ReadLength(bs).value; n <= MAX_INT && bs == LengthBytes(n) + rest
  {
    hide ReadBigEndian, BigEndian;
    var b, more := bs[0], bs[1..];
    assert bs == [b] + more;
    if b >= 128 {
      NoDigits();
      DigitsRead(more, b - 128, 0);
      var (n, rest) := ReadLength(bs).value;
      assert [] + more == more;
      assert bs == [b] + (BigEndian(n) + rest);
      assert bs == ([b] + BigEndian(n)) + rest;
    }
  }

  lemma LengthIff(bs: Bytes, n: nat, rest: Bytes)
    ensures ReadLength(bs) == Some((n, rest)) <==> n <= MAX_INT && bs == LengthBytes(n) + rest
  {
    hide ReadLength, LengthBytes;
    if n <= MAX_INT { LengthRead(n, rest); }
    if ReadLength(bs).Some? { LengthWritten(bs); }
  }

  // ----- one element -----

  function TagBytes(cls: nat, compound: bool, tag: nat): Bytes
    requires cls < 4
  {
    var high := cls * 64 + if compound then 32 else 0;
    if tag < LONG_TAG then [high + tag] else [high + LONG_TAG] + Base128(tag)
  }

  /** The identifier octets of section 8.1.2 of X.690, written out up to two octets of tag number. */
  lemma TagForms(cls: nat, compound: bool, tag: nat)
    requires cls < 4 && tag < 0x4000
    ensures var high := cls * 64 + if compound then 32 else 0;
      TagBytes(cls, compound, tag) ==
        if tag < 31 then [high + tag]
        else if tag < 128 then [high + 31, tag]
        else [high + 31, 128 + tag / 128, tag % 128]
  {
    if tag >= 128 { assert Groups(tag / 128) == [] + [128 + tag / 128]; }
  }

  datatype Head = Head(cls: nat, compound: bool, tag: nat)

  function ReadTag(bs: Bytes): Option<(Head, Bytes)> {
    if bs == [] then None
    else
      var cls, compound, low := bs[0] / 64, bs[0] / 32 % 2 == 1, bs[0] % 32;
      if low < LONG_TAG then Some((Head(cls, compound, low), bs[1..]))
      else
        var r := ReadBase128(bs[1..], 0, 0);
        if r.None? || r.value.0 < LONG_TAG then None
        else Some((Head(cls, compound, r.value.0), r.value.1))
  }

  lemma FirstByte(cls: nat, compound: bool, low: nat)
    requires cls < 4 && low < 32
    ensures var b := cls * 64 + (if compound then 32 else 0) + low;
      b < 256 && b / 64 == cls && (b / 32 % 2 == 1 <==> compound) && b % 32 == low
  {
  }

  lemma FirstByteBack(b: Byte)
    ensures b == b / 64 * 64 + (if b / 32 % 2 == 1 then 32 else 0) + b % 32 && b / 64 < 4
  {
  }

  lemma TagIff(bs: Bytes, h: Head, rest: Bytes)
    ensures ReadTag(bs) == Some((h, rest)) <==>
      h.cls < 4 && h.tag <= MAX_INT && bs == TagBytes(h.cls, h.compound, h.tag) + rest
  {
    hide ReadBase128, Base128;
    if bs != [] {
      assert bs == [bs[0]] + bs[1..];
      FirstByteBack(bs[0]);
      if h.cls < 4 {
        FirstByte(h.cls, h.compound, if h.tag < LONG_TAG then h.tag else LONG_TAG);
        Base128Iff(bs[1..], h.tag, rest);
        if bs == TagBytes(h.cls, h.compound, h.tag) + rest && h.tag >= LONG_TAG {
          assert bs[1..] == Base128(h.tag) + rest;
        }
        if bs == TagBytes(h.cls, h.compound, h.tag) + rest && h.tag < LONG_TAG {
          assert bs[1..] == rest;
        }
        if ReadTag(bs) == Some((h, rest)) && h.tag >= LONG_TAG {
          assert bs == [bs[0]] + (Base128(h.tag) + rest);
          assert bs == TagBytes(h.cls, h.compound, h.tag) + rest;
        }
      }
    }
  }

  function Encode(v: Tlv): Bytes
    requires Encodable(v)
  {
    TagBytes(v.cls, v.compound, v.tag) + LengthBytes(|v.body|) + v.body
  }

  lemma HeaderLength(v: Tlv)
    requires Encodable(v)
    ensures |v.body| < |Encode(v)| <= |v.body| + 11
  {
    BigEndianLength(|v.body|);
    GroupsLength(v.tag / 128, 4);
  }

  /** `asn1.Unmarshal` into a RawValue: the first element and what follows it. */
  function Decode(bs: Bytes): Option<(Tlv, Bytes)> {
    var t := ReadTag(bs);
    if t.None? then None
    else
      var l := ReadLength(t.value.1);
      if l.None? || l.value.0 > |l.value.1| then None
      else
        var h, n, data := t.value.0, l.value.0, l.value.1;
        Some((Tlv(h.cls, h.compound, h.tag, data[..n]), data[n..]))
  }

  /** Decoding inverts encoding, and accepts nothing that encoding does not produce. */
  lemma DecodeIff(bs: Bytes, v: Tlv, rest: Bytes)
    ensures Decode(bs) == Some((v, rest)) <==> Encodable(v) && bs == Encode(v) + rest
  {
    if Encodable(v) && bs == Encode(v) + rest { DecodeEncoded(v, rest); }
    if Decode(bs) == Some((v, rest)) { EncodeDecoded(bs); }
  }

  lemma DecodeEncoded(v: Tlv, rest: Bytes)
    requires Encodable(v)
    ensures Decode(Encode(v) + rest) == Some((v, rest))
  {
    hide ReadTag, ReadLength, TagBytes, LengthBytes;
    var n := |v.body|;
    var bs := Encode(v) + rest;
    var after := LengthBytes(n) + (v.body + rest);
    assert bs == TagBytes(v.cls, v.compound, v.tag) + after;
    TagIff(bs, Head(v.cls, v.compound, v.tag), after);
    LengthIff(after, n, v.body + rest);
    assert (v.body + rest)[..n] == v.body && (v.body + rest)[n..] == rest;
  }

  lemma EncodeDecoded(bs: Bytes)
    requires Decode(bs).Some?
    ensures var (v, rest) := Decode(bs).value; Encodable(v) && bs == Encode(v) + rest
  {
    hide ReadTag, ReadLength, TagBytes, LengthBytes;
    var (h, after) := ReadTag(bs).value;
    TagIff(bs, h, after);
    var (n, data) := ReadLength(after).value;
    LengthIff(after, n, data);
    var (v, rest) := Decode(bs).value;
    assert data == v.body + rest;
    assert bs == TagBytes(v.cls, v.compound, v.tag) + (LengthBytes(|v.body|) + (v.body + rest));
  }

  lemma DecodeShrinks(bs: Bytes)
    requires Decode(bs).Some?
    ensures |Decode(bs).value.1| < |bs|
  {
    hide Decode, LengthBytes, Base128;
    EncodeDecoded(bs);
    var (v, rest) := Decode(bs).value;
    assert |TagBytes(v.cls, v.compound, v.tag)| > 0;
  }

  /** No encoding is a proper prefix of another: concatenated elements have one reading. */
  lemma PrefixFree(v: Tlv, x: Bytes, w: Tlv, y: Bytes)
    requires Encodable(v) && Encodable(w) && Encode(v) + x == Encode(w) + y
    ensures v == w && x == y
  {
    hide Encode, Decode;
    DecodeIff(Encode(v) + x, v, x);
    DecodeIff(Encode(v) + x, w, y);
  }

  // ----- runs of elements -----

  function EncodeAll(vs: seq<Tlv>): Bytes
    requires forall v | v in vs :: Encodable(v)
  {
    if vs == [] then [] else Encode(vs[0]) + EncodeAll(vs[1..])
  }

  /** The elements `bs` starts with, and the bytes from the first undecodable one on. */
  function Elements(bs: Bytes): (seq<Tlv>, Bytes)
    decreases |bs|
  {
    if Decode(bs).None? then ([], bs)
    else
      var (v, rest) := Decode(bs).value;
      DecodeShrinks(bs);
      var (vs, tail) := Elements(rest);
      ([v] + vs, tail)
  }

  /** The split is the only one into encoded elements and an undecodable tail. */
  lemma {:induction false} ElementsIff(bs: Bytes, vs: seq<Tlv>, tail: Bytes)
    ensures Elements(bs) == (vs, tail) <==>
      (forall v | v in vs :: Encodable(v)) && bs == EncodeAll(vs) + tail && Decode(tail).None?
  {
    hide EncodeAll, Decode;
    ElementsWritten(bs);
    if (forall v | v in vs :: Encodable(v)) && Decode(tail).None? {
      ElementsRead(vs, tail);
      assert Elements(tail) == ([], tail) && vs + [] == vs;
    }
  }

  lemma {:induction false} OneMore(v: Tlv, rest: Bytes)
    requires Encodable(v)
    ensures Elements(Encode(v) + rest) == ([v] + Elements(rest).0, Elements(rest).1)
  {
    hide Decode, Encode;
    DecodeIff(Encode(v) + rest, v, rest);
  }

  lemma {:induction false} ElementsRead(vs: seq<Tlv>, tail: Bytes)
    requires forall v | v in vs :: Encodable(v)
    ensures var (more, left) := Elements(tail); Elements(EncodeAll(vs) + tail) == (vs + more, left)
  {
    hide Decode, Encode;
    var (more, left) := Elements(tail);
    if vs == [] {
      assert EncodeAll(vs) + tail == tail;
      assert vs + more == more;
    } else {
      assert forall v | v in vs[1..] :: v in vs;
      ElementsRead(vs[1..], tail);
      OneMore(vs[0], EncodeAll(vs[1..]) + tail);
      assert EncodeAll(vs) + tail == Encode(vs[0]) + (EncodeAll(vs[1..]) + tail);
      assert [vs[0]] + (vs[1..] + more) == vs + more;
    }
  }

  lemma {:induction false} ElementsWritten(bs: Bytes)
    ensures var (vs, tail) := Elements(bs);
      (forall v | v in vs :: Encodable(v)) && bs == EncodeAll(vs) + tail && Decode(tail).None?
    decreases |bs|
  {
    hide Decode, Encode;
    if Decode(bs).Some? {
      var (v, rest) := Decode(bs).value;
      DecodeIff(bs, v, rest);
      DecodeShrinks(bs);
      ElementsWritten(rest);
      var (vs, tail) := Elements(rest);
      assert ([v] + vs)[1..] == vs;
      assert bs == Encode(v) + (EncodeAll(vs) + tail);
    } else {
      assert [] + bs == bs;
    }
  }

  // ----- object identifiers -----

  type Oid = seq<nat>

  function Arcs(ns: seq<nat>): Bytes {
    if ns == [] then [] else Base128(ns[0]) + Arcs(ns[1..])
  }

  function ReadArcs(bs: Bytes): Option<seq<nat>>
    decreases |bs|
  {
    if bs == [] then Some([])
    else
      var r := ReadBase128(bs, 0, 0);
      if r.None? then None
      else
        ArcShrinks(bs);
        var more := ReadArcs(r.value.1);
        if more.None? then None else Some([r.value.0] + more.value)
  }

  lemma {:induction false} ArcShrinks(bs: Bytes)
    requires ReadBase128(bs, 0, 0).Some?
    ensures |ReadBase128(bs, 0, 0).value.1| < |bs|
  {
    hide ReadBase128;
    var (n, rest) := ReadBase128(bs, 0, 0).value;
    Base128Iff(bs, n, rest);
  }

  lemma {:induction false} ArcsRead(ns: seq<nat>)
    requires forall n | n in ns :: n <= MAX_INT
    ensures ReadArcs(Arcs(ns)) == Some(ns)
  {
    hide ReadBase128;
    if ns != [] {
      assert forall n | n in ns[1..] :: n in ns;
      ArcsRead(ns[1..]);
      Base128Iff(Arcs(ns), ns[0], Arcs(ns[1..]));
      assert ns == [ns[0]] + ns[1..];
      assert |Arcs(ns)| > 0 && ns[0] in ns;
    }
  }

  lemma {:induction false} ArcsWritten(bs: Bytes)
    requires ReadArcs(bs).Some?
    ensures var ns := ReadArcs(bs).value; (forall n | n in ns :: n <= MAX_INT) && bs == Arcs(ns)
    ensures bs != [] ==> ReadArcs(bs).value != []
    decreases |bs|
  {
    hide ReadBase128, Base128;
    if bs != [] {
      var (n, rest) := ReadBase128(bs, 0, 0).value;
      ArcShrinks(bs);
      Base128Iff(bs, n, rest);
      ArcsWritten(rest);
      var more := ReadArcs(rest).value;
      assert ([n] + more)[1..] == more;
    }
  }

  lemma {:induction false} ArcsLength(ns: seq<nat>)
    requires forall n | n in ns :: n <= MAX_INT
    ensures |Arcs(ns)| <= 5 * |ns|
  {
    if ns != [] {
      assert ns[0] in ns && forall n | n in ns[1..] :: n in ns;
      GroupsLength(ns[0] / 128, 4);
      ArcsLength(ns[1..]);
    }
  }

  predicate ValidOid(oid: Oid) {
    && |oid| >= 2 && oid[0] <= 2 && (oid[0] < 2 ==> oid[1] < 40)
    && oid[0] * 40 + oid[1] <= MAX_INT
    && forall n | n in oid[2..] :: n <= MAX_INT
  }

  function OidBody(oid: Oid): Bytes
    requires ValidOid(oid)
  {
    Arcs([oid[0] * 40 + oid[1]] + oid[2..])
  }

  function ReadOid(body: Bytes): Option<Oid> {
    var r := ReadArcs(body);
    if r.None? || r.value == [] then None
    else
      var first := r.value[0];
      Some((if first < 80 then [first / 40, first % 40] else [2, first - 80]) + r.value[1..])
  }

  lemma OidIff(body: Bytes, oid: Oid)
    ensures ReadOid(body) == Some(oid) <==> ValidOid(oid) && body == OidBody(oid)
  {
    hide ReadArcs, Arcs;
    if ValidOid(oid) && body == OidBody(oid) {
      var ns := [oid[0] * 40 + oid[1]] + oid[2..];
      ArcsRead(ns);
      assert ns[1..] == oid[2..];
      assert oid == [oid[0], oid[1]] + oid[2..];
    }
    if ReadOid(body) == Some(oid) {
      ArcsWritten(body);
      var ns := ReadArcs(body).value;
      assert oid[2..] == ns[1..];
      assert oid[0] * 40 + oid[1] == ns[0] && ns[0] in ns;
      assert forall n | n in ns[1..] :: n in ns;
      assert [oid[0] * 40 + oid[1]] + oid[2..] == ns;
      assert ValidOid(oid);
    }
  }

  function OidTlv(oid: Oid): Tlv
    requires ValidOid(oid)
  {
    Tlv(0, false, OBJECT_IDENTIFIER, OidBody(oid))
  }

  /** `asn1.Unmarshal` into an ObjectIdentifier. */
  function DecodeOid(bs: Bytes): Option<(Oid, Bytes)> {
    var r := Decode(bs);
    if r.None? || r.value.0.cls != 0 || r.value.0.tag != OBJECT_IDENTIFIER || r.value.0.compound then None
    else
      var oid := ReadOid(r.value.0.body);
      if oid.None? then None else Some((oid.value, r.value.1))
  }

  lemma DecodeOidIff(bs: Bytes, oid: Oid, rest: Bytes)
    ensures DecodeOid(bs) == Some((oid, rest)) <==>
      ValidOid(oid) && Encodable(OidTlv(oid)) && bs == Encode(OidTlv(oid)) + rest
  {
    hide Decode, Encode, ReadOid, OidBody, ValidOid;
    if ValidOid(oid) {
      OidIff(OidBody(oid), oid);
      DecodeIff(bs, OidTlv(oid), rest);
    }
    if DecodeOid(bs) == Some((oid, rest)) {
      OidIff(Decode(bs).value.0.body, oid);
    }
  }
}
