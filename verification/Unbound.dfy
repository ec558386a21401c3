/** The requests in which the walk finds no binding: which are reported as having none and which as
    malformed, in terms of the bytes on the wire. */
module Unbound {
  import opened Data
  import opened Der
  import opened ChannelBinding

  // ----- the wire format -----

  /** An attribute that starts with one of the two binding identifiers, 1.2.840.113549.1.9.16.2.56 or
      the legacy 1.2.840.113549.1.9.16.2.43. */
  predicate Carries(v: Tlv) {
    && v.tag == 16
    && (|| [0x06, 0x0b, 0x2a, 0x86, 0x48, 0x86, 0xf7, 0x0d, 0x01, 0x09, 0x10, 0x02, 0x38] <= v.body
        || [0x06, 0x0b, 0x2a, 0x86, 0x48, 0x86, 0xf7, 0x0d, 0x01, 0x09, 0x10, 0x02, 0x2b] <= v.body)
  }

  /** A well-formed binding attribute around 32 octets. */
  ghost predicate HoldsBinding(v: Tlv) {
    exists b: Binding :: b.Valid() && |b.value| == 32 && b.Attribute() == v
  }

  /** Elements without a binding identifier. */
  ghost predicate Plain(vs: seq<Tlv>) {
    forall v | v in vs :: Encodable(v) && !Carries(v)
  }

  /** The bytes start with no element. */
  ghost predicate Nothing(bs: Bytes) {
    forall v: Tlv, rest: Bytes | Encodable(v) :: bs != Encode(v) + rest
  }

  ghost predicate ThreeFields(fields: seq<Tlv>) {
    |fields| == 3 && forall v | v in fields :: Encodable(v)
  }

  /** One SEQUENCE and nothing else: three fields, then `rest`. */
  ghost predicate Framed(tbs: Bytes, fields: seq<Tlv>, rest: Bytes) {
    ThreeFields(fields) &&
    exists v: Tlv | Encodable(v) :: v.tag == 16 && v.body == EncodeAll(fields) + rest && tbs == Encode(v)
  }

  /** The fourth field is `v`. */
  ghost predicate Fourth(tbs: Bytes, v: Tlv) {
    Encodable(v) && exists fields, rest: Bytes :: Framed(tbs, fields, Encode(v) + rest)
  }

  /** The fourth field has the context tag 0 and holds `body`. */
  ghost predicate HasAttributes(tbs: Bytes, body: Bytes) {
    exists v: Tlv :: Fourth(tbs, v) && v.cls == 2 && v.tag == 0 && v.body == body
  }

  /** No further element, another field instead of the attributes, or attributes without an identifier. */
  ghost predicate Without(tbs: Bytes) {
    || (exists fields, rest :: Framed(tbs, fields, rest) && Nothing(rest))
    || (exists v: Tlv :: Fourth(tbs, v) && !(v.cls == 2 && v.tag == 0))
    || (exists attrs :: Plain(attrs) && HasAttributes(tbs, EncodeAll(attrs)))
  }

  /** The first attribute with an identifier is not a well-formed binding. */
  ghost predicate BadlyBound(tbs: Bytes) {
    exists before, v: Tlv, behind: Bytes | Plain(before) && Encodable(v) && Carries(v) && !HoldsBinding(v) ::
      HasAttributes(tbs, EncodeAll(before) + (Encode(v) + behind))
  }

  /** Bytes that are no element follow attributes without an identifier. */
  ghost predicate Cluttered(tbs: Bytes) {
    exists attrs, junk: Bytes | Plain(attrs) && junk != [] && Nothing(junk) ::
      HasAttributes(tbs, EncodeAll(attrs) + junk)
  }

  // ----- how the walk reads it -----

  lemma CarriesIff(v: Tlv)
    ensures IsBinding(v) <==> Carries(v)
  {
    hide DecodeOid, Encode, ValidOid, OidBody;
    OidTlvBytes(TLS_EXPORTER_OID);
    OidTlvBytes(CMC_BINDING_OID);
    if IsBinding(v) {
      var (oid, rest) := DecodeOid(v.body).value;
      DecodeOidIff(v.body, oid, rest);
    }
    if PREAMBLE <= v.body {
      var rest := v.body[13..];
      assert v.body == PREAMBLE + rest;
      DecodeOidIff(v.body, TLS_EXPORTER_OID, rest);
    } else if LEGACY_PREAMBLE <= v.body {
      var rest := v.body[13..];
      assert v.body == LEGACY_PREAMBLE + rest;
      DecodeOidIff(v.body, CMC_BINDING_OID, rest);
    }
  }

  lemma HoldsIff(v: Tlv)
    requires Encodable(v) && IsBinding(v)
    ensures HoldsBinding(v) <==> ReadBinding(v).Found?
    ensures !HoldsBinding(v) <==> ReadBinding(v) == Malformed(BadBinding)
  {
    hide IsBinding, ReadBinding, Encode, ValidOid, OidBody;
    if ReadBinding(v).Found? {
      var b := BindingWritten(v);
      BindingIsLong(b);
    }
    if b: Binding :| b.Valid() && |b.value| == 32 && b.Attribute() == v { BindingReads(b); }
    FoundOrBad(v);
  }

  lemma BindingIsLong(b: Binding)
    requires b.Valid()
    ensures |b.value| == 32
  {
  }

  lemma FoundOrBad(v: Tlv)
    requires IsBinding(v)
    ensures ReadBinding(v).Found? || ReadBinding(v) == Malformed(BadBinding)
  {
  }

  lemma NothingIff(bs: Bytes)
    ensures Nothing(bs) <==> Decode(bs).None?
  {
    hide Decode, Encode, Encodable;
    if Decode(bs).Some? { DecodeIff(bs, Decode(bs).value.0, Decode(bs).value.1); }
    forall v: Tlv, rest: Bytes | Encodable(v) && bs == Encode(v) + rest ensures Decode(bs).Some? {
      DecodeIff(bs, v, rest);
    }
  }

  lemma {:induction false} PlainHasNone(vs: seq<Tlv>)
    ensures (forall v | v in vs :: !Carries(v)) <==> Bindings(vs) == []
  {
    hide IsBinding, Carries;
    if vs != [] {
      CarriesIff(vs[0]);
      PlainHasNone(vs[1..]);
      assert vs == [vs[0]] + vs[1..];
    }
  }

  /** The attributes, by the first of them that carries an identifier. */
  lemma {:induction false} PlainReads(attrs: seq<Tlv>, junk: Bytes)
    requires Plain(attrs) && Nothing(junk)
    ensures InAttributes(EncodeAll(attrs) + junk) == if junk == [] then Absent else Malformed(BadAttributes)
  {
    hide Encode, Decode, EncodeAll, IsBinding, ReadBinding, Carries, Encodable;
    NothingIff(junk);
    ElementsIff(EncodeAll(attrs) + junk, attrs, junk);
    PlainHasNone(attrs);
  }

  lemma {:induction false} BoundReads(before: seq<Tlv>, v: Tlv, behind: Bytes)
    requires Plain(before) && Encodable(v) && Carries(v)
    ensures IsBinding(v) && InAttributes(EncodeAll(before) + (Encode(v) + behind)) == ReadBinding(v)
  {
    hide Encode, Elements, EncodeAll, IsBinding, ReadBinding, Carries, Encodable;
    CarriesIff(v);
    ElementsAround(before, v, behind);
    forall w | w in before ensures !IsBinding(w) { CarriesIff(w); }
    FirstBinding(before, [v] + Elements(behind).0);
    assert ([v] + Elements(behind).0)[1..] == Elements(behind).0;
  }

  lemma PlainWritten(body: Bytes) returns (attrs: seq<Tlv>, junk: Bytes)
    requires Bindings(Elements(body).0) == []
    ensures Plain(attrs) && Nothing(junk) && body == EncodeAll(attrs) + junk
  {
    hide Encode, Decode, EncodeAll, IsBinding, Carries, Encodable;
    var (vs, tail) := Elements(body);
    attrs, junk := vs, tail;
    ElementsWritten(body);
    NothingIff(junk);
    PlainHasNone(attrs);
  }

  lemma BoundWritten(body: Bytes) returns (before: seq<Tlv>, v: Tlv, behind: Bytes)
    requires Bindings(Elements(body).0) != []
    ensures Plain(before) && Encodable(v) && Carries(v) && body == EncodeAll(before) + (Encode(v) + behind)
  {
    hide Encode, Elements, EncodeAll, IsBinding, Carries, Encodable;
    var attrs := Elements(body).0;
    var i := SplitAtBinding(attrs);
    behind := ElementsAroundBack(body, i);
    before, v := attrs[..i], attrs[i];
    CarriesIff(v);
    forall w | w in before ensures !Carries(w) { CarriesIff(w); }
  }

  // ----- the frame -----

  lemma FrameReads(tbs: Bytes, fields: seq<Tlv>, rest: Bytes)
    requires Framed(tbs, fields, rest)
    ensures InRequest(tbs) ==
      if Decode(rest).None? then Absent
      else
        var v := Decode(rest).value.0;
        if v.cls == 2 && v.tag == 0 then InAttributes(v.body) else Absent
  {
    hide Encode, Decode, EncodeAll, InAttributes, Encodable, Elements;
    var v: Tlv :| Encodable(v) && v.tag == 16 && v.body == EncodeAll(fields) + rest && tbs == Encode(v);
    assert tbs == Encode(v) + [];
    DecodeIff(tbs, v, []);
    ElementsRead(fields, rest);
    ElementsLength(rest);
  }

  lemma FrameWritten(tbs: Bytes) returns (fields: seq<Tlv>, rest: Bytes)
    requires InRequest(tbs) != Malformed(BadRequest)
    ensures Framed(tbs, fields, rest)
  {
    hide Encode, Decode, EncodeAll, InAttributes, Encodable, Elements;
    var (outer, none) := Decode(tbs).value;
    DecodeIff(tbs, outer, none);
    assert Encode(outer) + none == Encode(outer);
    var (vs, tail) := Elements(outer.body);
    ElementsWritten(outer.body);
    EncodeAllSplit(vs, 3);
    fields, rest := vs[..3], EncodeAll(vs[3..]) + tail;
    assert outer.body == EncodeAll(fields) + rest;
  }

  lemma NeverBadRequest(body: Bytes)
    ensures InAttributes(body) != Malformed(BadRequest) && InAttributes(body) != Malformed(NilRequest)
  {
    hide IsBinding, Elements;
    var bindings := Bindings(Elements(body).0);
    if bindings != [] { FoundOrBad(bindings[0]); }
  }

  lemma AttributesRead(tbs: Bytes, body: Bytes)
    requires HasAttributes(tbs, body)
    ensures InRequest(tbs) == InAttributes(body)
  {
    hide InRequest, InAttributes, Encode, Framed, Encodable, Decode;
    var v: Tlv :| Fourth(tbs, v) && v.cls == 2 && v.tag == 0 && v.body == body;
    var fields, rest: Bytes :| Framed(tbs, fields, Encode(v) + rest);
    FrameReads(tbs, fields, Encode(v) + rest);
    DecodeIff(Encode(v) + rest, v, rest);
  }

  /** The three kinds of framed requests. */
  lemma FrameCases(tbs: Bytes, fields: seq<Tlv>, rest: Bytes) returns (v: Option<Tlv>)
    requires Framed(tbs, fields, rest)
    ensures v.None? ==> Nothing(rest) && InRequest(tbs) == Absent
    ensures v.Some? ==> Fourth(tbs, v.value)
    ensures v.Some? && !(v.value.cls == 2 && v.value.tag == 0) ==> InRequest(tbs) == Absent
    ensures v.Some? && v.value.cls == 2 && v.value.tag == 0 ==>
      HasAttributes(tbs, v.value.body) && InRequest(tbs) == InAttributes(v.value.body)
  {
    hide InRequest, InAttributes, Encode, Framed, Encodable, Decode;
    FrameReads(tbs, fields, rest);
    if Decode(rest).None? {
      NothingIff(rest);
      v := None;
    } else {
      var (w, more) := Decode(rest).value;
      DecodeIff(rest, w, more);
      assert Framed(tbs, fields, Encode(w) + more);
      v := Some(w);
    }
  }

  /** What the attributes are, by what is found in them. */
  lemma AttributeCases(tbs: Bytes, body: Bytes)
    requires HasAttributes(tbs, body)
    ensures InAttributes(body) == Absent ==> Without(tbs)
    ensures InAttributes(body) == Malformed(BadAttributes) ==> Cluttered(tbs)
    ensures InAttributes(body) == Malformed(BadBinding) ==> BadlyBound(tbs)
  {
    hide Encode, Elements, EncodeAll, IsBinding, ReadBinding, Carries, Encodable, HasAttributes, Framed, Fourth,
      HoldsBinding, InAttributes;
    if Bindings(Elements(body).0) == [] {
      var attrs, junk := PlainWritten(body);
      PlainReads(attrs, junk);
      if junk == [] { assert EncodeAll(attrs) + junk == EncodeAll(attrs); }
    } else {
      var before, v, behind := BoundWritten(body);
      BoundReads(before, v, behind);
      HoldsIff(v);
      FoundOrBad(v);
    }
  }

  // ----- the theorems -----

  lemma WithoutReads(tbs: Bytes)
    requires Without(tbs)
    ensures InRequest(tbs) == Absent
  {
    hide InRequest, InAttributes, Encode, Framed, Fourth, HasAttributes, Encodable, Decode, EncodeAll, Carries;
    if fields, rest :| Framed(tbs, fields, rest) && Nothing(rest) {
      FrameReads(tbs, fields, rest);
      NothingIff(rest);
    } else if v: Tlv :| Fourth(tbs, v) && !(v.cls == 2 && v.tag == 0) {
      OtherReads(tbs, v);
    } else {
      var attrs :| Plain(attrs) && HasAttributes(tbs, EncodeAll(attrs));
      AttributesRead(tbs, EncodeAll(attrs));
      NoElement();
      PlainReads(attrs, []);
      assert EncodeAll(attrs) + [] == EncodeAll(attrs);
    }
  }

  lemma OtherReads(tbs: Bytes, v: Tlv)
    requires Fourth(tbs, v) && !(v.cls == 2 && v.tag == 0)
    ensures InRequest(tbs) == Absent
  {
    hide InRequest, InAttributes, Encode, Framed, Encodable, Decode;
    var fields, rest: Bytes :| Framed(tbs, fields, Encode(v) + rest);
    FrameReads(tbs, fields, Encode(v) + rest);
    DecodeIff(Encode(v) + rest, v, rest);
  }

  lemma NoElement()
    ensures Nothing([])
  {
    hide Nothing;
    NothingIff([]);
  }

  /** A request is reported as having no binding exactly when it has no further element behind three
      fields, or another field there than the attributes, or attributes that split wholly into
      elements none of which carries a binding identifier. */
  lemma AbsentIff(tbs: Bytes)
    ensures InRequest(tbs) == Absent <==> Without(tbs)
  {
    hide InRequest, InAttributes, Framed, Fourth, HasAttributes, Nothing, Carries, Encodable, EncodeAll;
    if InRequest(tbs) == Absent {
      var fields, rest := FrameWritten(tbs);
      var v := FrameCases(tbs, fields, rest);
      if v.Some? && v.value.cls == 2 && v.value.tag == 0 { AttributeCases(tbs, v.value.body); }
    }
    if Without(tbs) { WithoutReads(tbs); }
  }

  lemma BadlyBoundReads(tbs: Bytes)
    requires BadlyBound(tbs)
    ensures InRequest(tbs) == Malformed(BadBinding)
  {
    hide InRequest, InAttributes, Encode, HasAttributes, Encodable, EncodeAll, Carries, HoldsBinding;
    var before, v: Tlv, behind: Bytes :| Plain(before) && Encodable(v) && Carries(v) && !HoldsBinding(v) &&
      HasAttributes(tbs, EncodeAll(before) + (Encode(v) + behind));
    AttributesRead(tbs, EncodeAll(before) + (Encode(v) + behind));
    BoundReads(before, v, behind);
    HoldsIff(v);
  }

  lemma ClutteredReads(tbs: Bytes)
    requires Cluttered(tbs)
    ensures InRequest(tbs) == Malformed(BadAttributes)
  {
    hide InRequest, InAttributes, Encode, HasAttributes, Encodable, EncodeAll, Carries, Nothing;
    var attrs, junk: Bytes :| Plain(attrs) && junk != [] && Nothing(junk)
      && HasAttributes(tbs, EncodeAll(attrs) + junk);
    AttributesRead(tbs, EncodeAll(attrs) + junk);
    PlainReads(attrs, junk);
  }

  /** Each way of being malformed, exactly: no SEQUENCE of at least three fields; bytes among the
      attributes that are no element; a first attribute with an identifier that holds no 32 octets. */
  lemma MalformedIff(tbs: Bytes)
    ensures InRequest(tbs) == Malformed(BadRequest) <==> forall fields, rest :: !Framed(tbs, fields, rest)
    ensures InRequest(tbs) == Malformed(BadAttributes) <==> Cluttered(tbs)
    ensures InRequest(tbs) == Malformed(BadBinding) <==> BadlyBound(tbs)
    ensures InRequest(tbs) != Malformed(NilRequest)
  {
    hide InRequest, InAttributes, Framed, Fourth, HasAttributes, Cluttered, BadlyBound, Without;
    if Cluttered(tbs) { ClutteredReads(tbs); }
    if BadlyBound(tbs) { BadlyBoundReads(tbs); }
    if fields, rest :| Framed(tbs, fields, rest) {
      var v := FrameCases(tbs, fields, rest);
      if v.Some? && v.value.cls == 2 && v.value.tag == 0 {
        AttributeCases(tbs, v.value.body);
        NeverBadRequest(v.value.body);
      }
    } else if InRequest(tbs) != Malformed(BadRequest) {
      var fields, rest := FrameWritten(tbs);
    }
  }

  // ----- what this means for a connection -----

  /** A request whose first attribute with an identifier is no well-formed binding is refused by
      every connection with an exporter, required or not. */
  lemma BadlyBoundIsRefused(state: Option<Connection>, tbs: Bytes, required: bool)
    requires BadlyBound(tbs) && LiveExporter(state).Live?
    ensures Decision(LiveExporter(state), Extracted(Some(tbs)), required) == BadCsr(BadBinding)
  {
    hide InRequest, BadlyBound, LiveExporter;
    BadlyBoundReads(tbs);
    EmptyIsUnframed();
  }

  lemma EmptyIsUnframed()
    ensures InRequest([]) == Malformed(BadRequest)
  {
  }

  /** Where nothing is required, a connection with an exporter accepts exactly the empty request,
      those without an identifier, and those bound to it. */
  lemma OptionalAcceptsIff(state: Option<Connection>, tbs: Bytes)
    requires LiveExporter(state).Live?
    ensures Decision(LiveExporter(state), Extracted(Some(tbs)), false) == Accepted <==>
      || tbs == [] || Without(tbs)
      || exists r: Request :: r.Valid() && tbs == r.Written() && LiveExporter(state) == Live(r.binding.value)
  {
    hide InRequest, Without, Request.Valid, Request.Written, LiveExporter;
    AbsentIff(tbs);
    FoundIff(tbs, LiveExporter(state).bytes);
  }

  /** An octet string of another length than 32 is no binding, whatever surrounds it. */
  lemma WrongLength(v: Tlv, id: Bytes, s: Tlv, afterSet: Bytes, o: Tlv, afterOctets: Bytes)
    requires Encodable(v) && Encodable(s) && Encodable(o) && v.tag == 16
    requires id == PREAMBLE || id == LEGACY_PREAMBLE
    requires v.body == id + (Encode(s) + afterSet) && s.body == Encode(o) + afterOctets
    requires s.tag == 17 && o.tag == 4 && |o.body| != 32
    ensures Carries(v) && !HoldsBinding(v)
  {
    hide Decode, DecodeOid, Encode, ValidOid, OidBody, HoldsBinding;
    CarriesIff(v);
    var oid := if id == PREAMBLE then TLS_EXPORTER_OID else CMC_BINDING_OID;
    OidTlvBytes(oid);
    DecodeOidIff(v.body, oid, Encode(s) + afterSet);
    DecodeIff(Encode(s) + afterSet, s, afterSet);
    DecodeIff(s.body, o, afterOctets);
    HoldsIff(v);
  }

  /** A smallest bound request, byte for byte, with either identifier. */
  lemma SmallestRequest(id: Bytes, x: Bytes)
    requires (id == PREAMBLE || id == LEGACY_PREAMBLE) && |x| == 32
    ensures InRequest([0x30, 0x3c, 0x02, 0x01, 0x00, 0x30, 0x00, 0x30, 0x00, 0xa0, 0x33, 0x30, 0x31] +
                      id + [0x31, 0x22, 0x04, 0x20] + x) == Found(x)
  {
    hide InRequest, Encode, ValidOid, OidBody, Request.Valid, EncodeAll, Binding.Valid;
    var oid := if id == PREAMBLE then TLS_EXPORTER_OID else CMC_BINDING_OID;
    var b := Binding(oid, x, Head(0, false, 0), [], Head(0, true, 0), [], Head(0, true, 0));
    SmallestBinding(b, id);
    var r := Request(Head(0, true, 0), SmallFields(), Head(0, true, 0), [], b, [], []);
    SmallestRequestIs(r, id);
    RequestRead(r);
  }

  function SmallFields(): seq<Tlv> {
    [Tlv(0, false, 2, [0x00]), Tlv(0, true, 16, []), Tlv(0, true, 16, [])]
  }

  predicate Smallest(b: Binding, id: Bytes) {
    && b == Binding(b.oid, b.value, Head(0, false, 0), [], Head(0, true, 0), [], Head(0, true, 0))
    && |b.value| == 32
    && (|| (id == PREAMBLE && b.oid == TLS_EXPORTER_OID)
        || (id == LEGACY_PREAMBLE && b.oid == CMC_BINDING_OID))
  }

  lemma SmallestBinding(b: Binding, id: Bytes)
    requires Smallest(b, id)
    ensures b.Valid() && Encode(b.Attribute()) == [0x30, 0x31] + id + [0x31, 0x22, 0x04, 0x20] + b.value
  {
    hide Encode, ValidOid, OidBody;
    var x := b.value;
    OidTlvBytes(b.oid);
    SetBytes(x);
    assert b.SetOf().body == [0x04, 0x20] + x;
    assert b.Attribute().body == id + ([0x31, 0x22, 0x04, 0x20] + x);
    ShortForm(b.Attribute());
    assert [0x30, 0x31] + (id + ([0x31, 0x22, 0x04, 0x20] + x)) == [0x30, 0x31] + id + [0x31, 0x22, 0x04, 0x20] + x;
  }

  lemma SmallFieldsAre()
    ensures ThreeFields(SmallFields())
    ensures EncodeAll(SmallFields()) == [0x02, 0x01, 0x00, 0x30, 0x00, 0x30, 0x00]
  {
    hide Encode;
    var fields := SmallFields();
    ShortForm(fields[0]);
    ShortForm(fields[1]);
    assert fields[1..] == [fields[1], fields[1]] && fields[1..][1..] == [fields[1]] && fields[1..][1..][1..] == [];
  }

  ghost predicate SmallestShape(r: Request, id: Bytes) {
    && Smallest(r.binding, id)
    && r == Request(Head(0, true, 0), SmallFields(), Head(0, true, 0), [], r.binding, [], [])
  }

  lemma SmallestAttributes(r: Request, id: Bytes)
    requires SmallestShape(r, id)
    ensures r.binding.Valid() && Encodable(r.Attributes())
    ensures Encode(r.Attributes()) ==
      [0xa0, 0x33] + ([0x30, 0x31] + id + [0x31, 0x22, 0x04, 0x20] + r.binding.value)
  {
    hide Encode, ValidOid, OidBody, Binding.Valid, Binding.Attribute, SmallFields, IsBinding;
    SmallestBinding(r.binding, id);
    var attr := [0x30, 0x31] + id + [0x31, 0x22, 0x04, 0x20] + r.binding.value;
    assert r.Attributes() == Tlv(2, true, 0, attr);
    ShortForm(r.Attributes());
  }

  lemma SmallestRequestIs(r: Request, id: Bytes)
    requires SmallestShape(r, id)
    ensures r.Valid()
    ensures r.Written() == [0x30, 0x3c, 0x02, 0x01, 0x00, 0x30, 0x00, 0x30, 0x00, 0xa0, 0x33, 0x30, 0x31] +
                           id + [0x31, 0x22, 0x04, 0x20] + r.binding.value
  {
    hide Encode, ValidOid, OidBody, Binding.Valid, Binding.Attribute, SmallFields, IsBinding, Request.Attributes,
      EncodeAll;
    SmallestAttributes(r, id);
    SmallFieldsAre();
    var attr := [0xa0, 0x33] + ([0x30, 0x31] + id + [0x31, 0x22, 0x04, 0x20] + r.binding.value);
    var body := [0x02, 0x01, 0x00, 0x30, 0x00, 0x30, 0x00] + attr;
    assert attr + [] == attr;
    assert r.Body() == body;
    ShortForm(Tlv(0, true, 16, body));
    OneString(id, r.binding.value);
  }

  lemma OneString(id: Bytes, x: Bytes)
    ensures [0x30, 0x3c] + ([0x02, 0x01, 0x00, 0x30, 0x00, 0x30, 0x00] +
              ([0xa0, 0x33] + ([0x30, 0x31] + id + [0x31, 0x22, 0x04, 0x20] + x))) ==
            [0x30, 0x3c, 0x02, 0x01, 0x00, 0x30, 0x00, 0x30, 0x00, 0xa0, 0x33, 0x30, 0x31] +
              id + [0x31, 0x22, 0x04, 0x20] + x
  {
    var y := id + [0x31, 0x22, 0x04, 0x20] + x;
    assert [0x30, 0x31] + id + [0x31, 0x22, 0x04, 0x20] + x == [0x30, 0x31] + y;
    assert [0xa0, 0x33] + ([0x30, 0x31] + y) == [0xa0, 0x33, 0x30, 0x31] + y;
  }
}
