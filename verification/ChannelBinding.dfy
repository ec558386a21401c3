/** RFC 9266 channel binding in a certificate signing request: the walk over the raw request
    (section 4.1 of RFC 2986) for the binding attribute, its inverse, and the decision on top. */
module ChannelBinding {
  import opened Data
  import opened Der

  const EXPORTER_LENGTH: nat := 32
  const TLS_1_3: nat := 0x0304

  const TLS_EXPORTER_OID: Oid := [1, 2, 840, 113549, 1, 9, 16, 2, 56]
  const CMC_BINDING_OID: Oid := [1, 2, 840, 113549, 1, 9, 16, 2, 43]

  datatype Malformation = NilRequest | BadRequest | BadAttributes | BadBinding
  datatype Extraction = Absent | Found(value: Bytes) | Malformed(why: Malformation)

  // ----- what the walk means -----

  predicate BindingOid(oid: Oid) {
    oid == TLS_EXPORTER_OID || oid == CMC_BINDING_OID
  }

  predicate IsBinding(attr: Tlv) {
    attr.tag == SEQUENCE && DecodeOid(attr.body).Some? && BindingOid(DecodeOid(attr.body).value.0)
  }

  /** The value of a binding attribute. */
  function ReadBinding(attr: Tlv): Extraction
    requires IsBinding(attr)
  {
    var set_ := Decode(DecodeOid(attr.body).value.1);
    if set_.None? || set_.value.0.tag != SET then Malformed(BadBinding)
    else
      var octets := Decode(set_.value.0.body);
      if octets.None? || octets.value.0.tag != OCTET_STRING || |octets.value.0.body| != EXPORTER_LENGTH
      then Malformed(BadBinding)
      else Found(octets.value.0.body)
  }

  function Bindings(attrs: seq<Tlv>): (r: seq<Tlv>)
    ensures forall v | v in r :: IsBinding(v)
  {
    if attrs == [] then []
    else if IsBinding(attrs[0]) then [attrs[0]] + Bindings(attrs[1..])
    else Bindings(attrs[1..])
  }

  /** The first attribute that carries either binding identifier decides. */
  function InAttributes(bs: Bytes): Extraction {
    var (attrs, junk) := Elements(bs);
    var bindings := Bindings(attrs);
    if bindings != [] then ReadBinding(bindings[0])
    else if junk != [] then Malformed(BadAttributes)
    else Absent
  }

  function InRequest(tbs: Bytes): Extraction {
    var outer := Decode(tbs);
    if outer.None? || outer.value.1 != [] || outer.value.0.tag != SEQUENCE then Malformed(BadRequest)
    else
      var fields := Elements(outer.value.0.body).0;
      if |fields| < 3 then Malformed(BadRequest)
      else if |fields| == 3 || fields[3].cls != CONTEXT || fields[3].tag != 0 then Absent
      else InAttributes(fields[3].body)
  }

  /** No request, an empty one, or the walk. */
  function Extracted(csr: Option<Bytes>): Extraction {
    if csr.None? then Malformed(NilRequest)
    else if csr.value == [] then Absent
    else InRequest(csr.value)
  }

  // ----- the walk -----

  lemma BindingsStep(bs: Bytes)
    requires Decode(bs).Some?
    ensures var (v, rest) := Decode(bs).value;
      InAttributes(bs) == if IsBinding(v) then ReadBinding(v) else InAttributes(rest)
  {
    hide Decode, IsBinding, ReadBinding;
    var (v, rest) := Decode(bs).value;
    var (vs, tail) := Elements(rest);
    assert ([v] + vs)[1..] == vs;
  }

  lemma {:induction false} ElementsLength(bs: Bytes)
    ensures |Elements(bs).0| > 0 <==> Decode(bs).Some?
    ensures Decode(bs).Some? ==>
      var (v, rest) := Decode(bs).value;
      Elements(bs).0[0] == v && Elements(bs).0[1..] == Elements(rest).0
  {
    hide Decode;
    if Decode(bs).Some? {
      var (v, rest) := Decode(bs).value;
      assert ([v] + Elements(rest).0)[1..] == Elements(rest).0;
    }
  }

  /** The loop over the attributes. */
  method WalkAttributes(bs: Bytes) returns (r: Extraction)
    ensures r == InAttributes(bs)
  {
    hide Decode, DecodeOid, IsBinding, ReadBinding, Elements, InAttributes;
    var attrBytes := bs;
    while |attrBytes| > 0
      invariant InAttributes(attrBytes) == InAttributes(bs)
      decreases |attrBytes|
    {
      var one := Decode(attrBytes);
      if one.None? {
        Undecodable(attrBytes);
        return Malformed(BadAttributes);
      }
      BindingsStep(attrBytes);
      DecodeShrinks(attrBytes);
      attrBytes := one.value.1;
      var binding := ExamineAttribute(one.value.0);
      if binding.Some? { return binding.value; }
    }
    NoAttributes();
    return Absent;
  }

  lemma Undecodable(bs: Bytes)
    requires bs != [] && Decode(bs).None?
    ensures InAttributes(bs) == Malformed(BadAttributes)
  {
    hide Decode, IsBinding, ReadBinding;
  }

  lemma NoAttributes()
    ensures InAttributes([]) == Absent
  {
    hide IsBinding, ReadBinding;
  }

  method ExamineAttribute(attr: Tlv) returns (r: Option<Extraction>)
    ensures r == if IsBinding(attr) then Some(ReadBinding(attr)) else None
  {
    hide Decode, DecodeOid;
    if attr.tag != SEQUENCE { return None; }
    var oid := DecodeOid(attr.body);
    if oid.None? { return None; }
    if oid.value.0 != TLS_EXPORTER_OID && oid.value.0 != CMC_BINDING_OID { return None; }
    var set_ := Decode(oid.value.1);
    if set_.None? { return Some(Malformed(BadBinding)); }
    if set_.value.0.tag != SET { return Some(Malformed(BadBinding)); }
    var octets := Decode(set_.value.0.body);
    if octets.None? { return Some(Malformed(BadBinding)); }
    if octets.value.0.tag != OCTET_STRING { return Some(Malformed(BadBinding)); }
    if |octets.value.0.body| != EXPORTER_LENGTH { return Some(Malformed(BadBinding)); }
    return Some(Found(octets.value.0.body));
  }

  /** walkCSRAttributesForBinding. */
  method Walk(tbs: Bytes) returns (r: Extraction)
    ensures r == InRequest(tbs)
  {
    hide Decode, Elements, InAttributes;
    var inner := Decode(tbs);
    if inner.None? { return Malformed(BadRequest); }
    if |inner.value.1| > 0 { return Malformed(BadRequest); }
    if inner.value.0.tag != SEQUENCE { return Malformed(BadRequest); }
    var body := inner.value.0.body;
    var rest := body;
    for i := 0 to 3
      invariant |Elements(body).0| >= i && Elements(body).0[i..] == Elements(rest).0
    {
      var field := Decode(rest);
      ElementsLength(rest);
      if field.None? { return Malformed(BadRequest); }
      rest := field.value.1;
    }
    var attrs := Decode(rest);
    ElementsLength(rest);
    if attrs.None? { return Absent; }
    if attrs.value.0.cls != CONTEXT || attrs.value.0.tag != 0 { return Absent; }
    assert Elements(body).0[3] == attrs.value.0;
    r := WalkAttributes(attrs.value.0.body);
  }

  method ExtractCSRChannelBinding(csr: Option<Bytes>) returns (r: Extraction)
    ensures r == Extracted(csr)
    ensures csr.None? ==> r == Malformed(NilRequest)
    ensures csr == Some([]) ==> r == Absent
  {
    if csr.None? { return Malformed(NilRequest); }
    if |csr.value| == 0 { return Absent; }
    r := Walk(csr.value);
  }

  // ----- the wire format of a bound request -----

  /** A binding attribute with everything the walk does not look at. */
  datatype Binding = Binding(
    oid: Oid, value: Bytes,
    octets: Head, afterOctets: Bytes,
    set_: Head, afterSet: Bytes,
    attribute: Head)
  {
    function Octets(): Tlv {
      Tlv(octets.cls, octets.compound, OCTET_STRING, value)
    }

    function SetOf(): Tlv
      requires Encodable(Octets())
    {
      Tlv(set_.cls, set_.compound, SET, Encode(Octets()) + afterOctets)
    }

    function Attribute(): Tlv
      requires ValidOid(oid) && Encodable(OidTlv(oid)) && Encodable(Octets()) && Encodable(SetOf())
    {
      Tlv(attribute.cls, attribute.compound, SEQUENCE, Encode(OidTlv(oid)) + (Encode(SetOf()) + afterSet))
    }

    predicate Valid() {
      && BindingOid(oid) && |value| == EXPORTER_LENGTH
      && ValidOid(oid) && Encodable(OidTlv(oid)) && Encodable(Octets()) && Encodable(SetOf()) && Encodable(Attribute())
    }
  }

  /** A request whose first binding attribute is `binding`: three leading fields, the attributes in
      front, any bytes behind. */
  datatype Request = Request(
    outer: Head, fields: seq<Tlv>, attributes: Head,
    before: seq<Tlv>, binding: Binding, behind: Bytes, trailing: Bytes)
  {
    function Attributes(): Tlv
      requires binding.Valid() && forall v | v in before :: Encodable(v)
    {
      Tlv(CONTEXT, attributes.compound, 0, EncodeAll(before) + (Encode(binding.Attribute()) + behind))
    }

    function Body(): Bytes
      requires binding.Valid() && (forall v | v in before :: Encodable(v)) && Encodable(Attributes())
      requires forall v | v in fields :: Encodable(v)
    {
      EncodeAll(fields) + (Encode(Attributes()) + trailing)
    }

    predicate Valid() {
      && binding.Valid() && (forall v | v in before :: Encodable(v) && !IsBinding(v))
      && |fields| == 3 && (forall v | v in fields :: Encodable(v))
      && Encodable(Attributes()) && Encodable(Tlv(outer.cls, outer.compound, SEQUENCE, Body()))
    }

    function Written(): Bytes
      requires Valid()
    {
      Encode(Tlv(outer.cls, outer.compound, SEQUENCE, Body()))
    }
  }

  lemma BindingReads(b: Binding)
    requires b.Valid()
    ensures IsBinding(b.Attribute()) && ReadBinding(b.Attribute()) == Found(b.value)
  {
    hide Decode, DecodeOid, Encode, ValidOid, OidTlv;
    DecodeOidIff(b.Attribute().body, b.oid, Encode(b.SetOf()) + b.afterSet);
    DecodeIff(Encode(b.SetOf()) + b.afterSet, b.SetOf(), b.afterSet);
    DecodeIff(b.SetOf().body, b.Octets(), b.afterOctets);
  }

  lemma BindingWritten(attr: Tlv) returns (b: Binding)
    requires Encodable(attr) && IsBinding(attr) && ReadBinding(attr).Found?
    ensures b.Valid() && b.Attribute() == attr && ReadBinding(attr) == Found(b.value)
  {
    hide Decode, DecodeOid, Encode, ValidOid, OidBody;
    var (oid, afterOid) := DecodeOid(attr.body).value;
    DecodeOidIff(attr.body, oid, afterOid);
    var (s, afterSet) := Decode(afterOid).value;
    DecodeIff(afterOid, s, afterSet);
    var (o, afterOctets) := Decode(s.body).value;
    DecodeIff(s.body, o, afterOctets);
    b := Binding(oid, o.body, Head(o.cls, o.compound, 0), afterOctets, Head(s.cls, s.compound, 0), afterSet,
                 Head(attr.cls, attr.compound, 0));
    assert b.Octets() == o;
    assert b.SetOf() == s;
    assert b.Attribute() == attr;
  }

  lemma {:induction false} FirstBinding(before: seq<Tlv>, rest: seq<Tlv>)
    requires forall v | v in before :: !IsBinding(v)
    ensures Bindings(before + rest) == Bindings(rest)
  {
    hide IsBinding;
    if before == [] {
      assert before + rest == rest;
    } else {
      assert forall v | v in before[1..] :: v in before;
      FirstBinding(before[1..], rest);
      assert before[0] in before && (before + rest)[1..] == before[1..] + rest;
    }
  }

  lemma {:induction false} SplitAtBinding(attrs: seq<Tlv>) returns (i: nat)
    requires Bindings(attrs) != []
    ensures i < |attrs| && IsBinding(attrs[i]) && attrs[i] == Bindings(attrs)[0]
    ensures forall v | v in attrs[..i] :: !IsBinding(v)
  {
    hide IsBinding;
    if IsBinding(attrs[0]) {
      i := 0;
    } else {
      var k := SplitAtBinding(attrs[1..]);
      i := k + 1;
      assert attrs[..i] == [attrs[0]] + attrs[1..][..k];
    }
  }

  lemma SplitAround(vs: seq<Tlv>, i: nat)
    requires 0 < i <= |vs|
    ensures vs[..i] != [] && vs[..i][0] == vs[0] && vs[..i][1..] == vs[1..][..i - 1] && vs[i..] == vs[1..][i - 1..]
  {
  }

  lemma PartsEncodable(vs: seq<Tlv>, i: nat)
    requires i <= |vs| && forall v | v in vs :: Encodable(v)
    ensures (forall v | v in vs[..i] :: Encodable(v)) && (forall v | v in vs[i..] :: Encodable(v))
  {
    hide Encodable;
    assert forall v | v in vs[..i] :: v in vs;
    assert forall v | v in vs[i..] :: v in vs;
  }

  lemma {:induction false} EncodeAllSplit(vs: seq<Tlv>, i: nat)
    requires i <= |vs| && forall v | v in vs :: Encodable(v)
    ensures (forall v | v in vs[..i] :: Encodable(v)) && (forall v | v in vs[i..] :: Encodable(v))
    ensures EncodeAll(vs) == EncodeAll(vs[..i]) + EncodeAll(vs[i..])
  {
    hide Encode, Encodable;
    PartsEncodable(vs, i);
    if i > 0 {
      PartsEncodable(vs, 1);
      SplitAround(vs, i);
      EncodeAllSplit(vs[1..], i - 1);
      EncodeFirst(vs);
      EncodeFirst(vs[..i]);
    } else {
      assert vs[i..] == vs;
    }
  }

  lemma {:induction false} EncodeFirst(vs: seq<Tlv>)
    requires vs != [] && forall v | v in vs :: Encodable(v)
    ensures Encodable(vs[0]) && (forall v | v in vs[1..] :: Encodable(v))
    ensures EncodeAll(vs) == Encode(vs[0]) + EncodeAll(vs[1..])
  {
    hide Encode, Encodable;
    PartsEncodable(vs, 1);
  }

  /** The elements in front of, at and after a given one. */
  lemma {:induction false} ElementsAround(vs: seq<Tlv>, v: Tlv, rest: Bytes)
    requires Encodable(v) && forall w | w in vs :: Encodable(w)
    ensures Elements(EncodeAll(vs) + (Encode(v) + rest)).0 == vs + ([v] + Elements(rest).0)
  {
    hide Encode, Elements, EncodeAll, Encodable;
    ElementsRead(vs, Encode(v) + rest);
    OneMore(v, rest);
  }

  lemma ElementsAroundBack(bs: Bytes, i: nat) returns (rest: Bytes)
    requires i < |Elements(bs).0|
    ensures var vs := Elements(bs).0;
      && (forall v | v in vs :: Encodable(v)) && (forall v | v in vs[..i] :: Encodable(v)) && vs[i] in vs
      && bs == EncodeAll(vs[..i]) + (Encode(vs[i]) + rest)
  {
    hide Encode, Elements, Encodable;
    ElementsWritten(bs);
    var (vs, tail) := Elements(bs);
    EncodeAllSplit(vs, i);
    assert forall v | v in vs[i + 1..] :: v in vs;
    assert vs[i..][1..] == vs[i + 1..];
    rest := EncodeAll(vs[i + 1..]) + tail;
    assert EncodeAll(vs[i..]) == Encode(vs[i]) + EncodeAll(vs[i + 1..]);
  }

  lemma AttributesRead(r: Request)
    requires r.Valid()
    ensures InAttributes(r.Attributes().body) == Found(r.binding.value)
  {
    hide Encode, Elements, EncodeAll, Encodable, IsBinding, ReadBinding, ValidOid;
    var v := r.binding.Attribute();
    ElementsAround(r.before, v, r.behind);
    var more := Elements(r.behind).0;
    BindingReads(r.binding);
    FirstBinding(r.before, [v] + more);
    assert ([v] + more)[1..] == more;
  }

  lemma RequestRead(r: Request)
    requires r.Valid()
    ensures InRequest(r.Written()) == Found(r.binding.value)
  {
    hide Encode, Decode, Elements, EncodeAll, IsBinding, Binding.Valid, Binding.Attribute, InAttributes;
    var outer := Tlv(r.outer.cls, r.outer.compound, SEQUENCE, r.Body());
    assert r.Written() == Encode(outer) + [];
    DecodeIff(r.Written(), outer, []);
    ElementsAround(r.fields, r.Attributes(), r.trailing);
    AttributesRead(r);
  }

  lemma RequestWritten(tbs: Bytes) returns (r: Request)
    requires InRequest(tbs).Found?
    ensures r.Valid() && tbs == r.Written() && InRequest(tbs) == Found(r.binding.value)
  {
    hide Encode, Decode, Elements, EncodeAll, IsBinding, ReadBinding, Binding.Valid, Binding.Attribute;
    var (outer, none) := Decode(tbs).value;
    DecodeIff(tbs, outer, none);
    assert Encode(outer) + none == Encode(outer);
    var fields := Elements(outer.body).0;
    var trailing := ElementsAroundBack(outer.body, 3);
    var attrs := Elements(fields[3].body).0;
    var i := SplitAtBinding(attrs);
    var behind := ElementsAroundBack(fields[3].body, i);
    var b := BindingWritten(attrs[i]);
    r := Request(Head(outer.cls, outer.compound, 0), fields[..3], Head(0, fields[3].compound, 0), attrs[..i], b,
      behind, trailing);
    assert r.Attributes() == fields[3];
    assert r.Body() == outer.body;
    assert Tlv(outer.cls, outer.compound, SEQUENCE, r.Body()) == outer;
  }

  /** The walk finds `x` exactly in the requests whose first binding attribute holds `x`: nothing
      else is taken for a binding and no well-formed binding is missed. */
  lemma FoundIff(tbs: Bytes, x: Bytes)
    ensures InRequest(tbs) == Found(x) <==> exists r: Request :: r.Valid() && tbs == r.Written() && r.binding.value == x
  {
    hide InRequest, Request.Valid, Request.Written;
    if InRequest(tbs) == Found(x) { var r := RequestWritten(tbs); }
    if r: Request :| r.Valid() && tbs == r.Written() && r.binding.value == x { RequestRead(r); }
  }

  // ----- the inverse -----

  lemma OidsAreShort(oid: Oid)
    requires BindingOid(oid)
    ensures ValidOid(oid) && |OidBody(oid)| <= 40 && Encodable(OidTlv(oid))
  {
    hide Arcs;
    assert oid == [1, 2, 840, 113549, 1, 9, 16, 2] + [oid[8]];
    ArcsLength([oid[0] * 40 + oid[1]] + oid[2..]);
  }

  /** The binding as the embedding helper writes it. */
  function Fresh(exporter: Bytes): Binding {
    Binding(TLS_EXPORTER_OID, exporter, Head(0, false, 0), [], Head(0, true, 0), [], Head(0, true, 0))
  }

  lemma FreshIsValid(exporter: Bytes)
    requires |exporter| == EXPORTER_LENGTH
    ensures var b := Fresh(exporter);
      b.Valid() && b.SetOf().body == Encode(b.Octets())
        && b.Attribute().body == Encode(OidTlv(b.oid)) + Encode(b.SetOf())
  {
    hide Encode, ValidOid, OidBody;
    var b := Fresh(exporter);
    OidsAreShort(b.oid);
    HeaderLength(OidTlv(b.oid));
    HeaderLength(b.Octets());
    HeaderLength(b.SetOf());
    assert Encode(b.Octets()) + [] == Encode(b.Octets());
    assert Encode(b.SetOf()) + [] == Encode(b.SetOf());
  }

  /** EmbedChannelBindingAttribute. */
  function Embedded(exporter: Bytes): Option<Bytes> {
    if |exporter| != EXPORTER_LENGTH then None
    else
      FreshIsValid(exporter);
      var octets := Encode(Tlv(0, false, OCTET_STRING, exporter));
      var wrapped := Encode(Tlv(0, true, SET, octets));
      Some(Encode(Tlv(0, true, SEQUENCE, Encode(OidTlv(TLS_EXPORTER_OID)) + wrapped)))
  }

  /** Splicing the embedded attribute into any request, in front of any bytes and behind any
      attributes that are no bindings, and walking the result gives the exporter back. */
  lemma EmbedRoundTrip(r: Request, exporter: Bytes)
    requires r.Valid() && Embedded(exporter).Some? && r.binding == Fresh(exporter)
    ensures Encode(r.binding.Attribute()) == Embedded(exporter).value
    ensures Extracted(Some(r.Written())) == Found(exporter)
  {
    hide Encode, Decode, OidBody, ValidOid, IsBinding, InRequest, EncodeAll, Request.Body;
    FreshIsValid(exporter);
    RequestRead(r);
    HeaderLength(Tlv(r.outer.cls, r.outer.compound, SEQUENCE, r.Body()));
  }

  lemma SetBytes(exporter: Bytes)
    requires |exporter| == EXPORTER_LENGTH
    ensures Encode(Tlv(0, false, OCTET_STRING, exporter)) == [0x04, 0x20] + exporter
    ensures Encode(Tlv(0, true, SET, [0x04, 0x20] + exporter)) == [0x31, 0x22, 0x04, 0x20] + exporter
  {
    hide Encode;
    ShortForm(Tlv(0, false, OCTET_STRING, exporter));
    ShortForm(Tlv(0, true, SET, [0x04, 0x20] + exporter));
    assert [0x31, 0x22] + ([0x04, 0x20] + exporter) == [0x31, 0x22, 0x04, 0x20] + exporter;
  }

  const PREAMBLE: Bytes := [0x06, 0x0b, 0x2a, 0x86, 0x48, 0x86, 0xf7, 0x0d, 0x01, 0x09, 0x10, 0x02, 0x38]
  const LEGACY_PREAMBLE: Bytes := [0x06, 0x0b, 0x2a, 0x86, 0x48, 0x86, 0xf7, 0x0d, 0x01, 0x09, 0x10, 0x02, 0x2b]

  /** The two identifiers, byte for byte. */
  lemma OidTlvBytes(oid: Oid)
    requires BindingOid(oid)
    ensures ValidOid(oid) && Encodable(OidTlv(oid))
    ensures Encode(OidTlv(oid)) == if oid == TLS_EXPORTER_OID then PREAMBLE else LEGACY_PREAMBLE
  {
    hide Encode, OidBody, ValidOid;
    OidBytes(oid);
    ShortForm(OidTlv(oid));
  }

  /** The embedded attribute, byte for byte. */
  lemma EmbedsExactly(exporter: Bytes)
    ensures Embedded(exporter).Some? <==> |exporter| == 32
    ensures Embedded(exporter).Some? ==>
      Embedded(exporter).value == [0x30, 0x31] + PREAMBLE + [0x31, 0x22, 0x04, 0x20] + exporter
  {
    if |exporter| == EXPORTER_LENGTH {
      hide Encode, OidBody, ValidOid, Fresh;
      FreshIsValid(exporter);
      SetBytes(exporter);
      OidTlvBytes(TLS_EXPORTER_OID);
      var body := PREAMBLE + ([0x31, 0x22, 0x04, 0x20] + exporter);
      ShortForm(Tlv(0, true, SEQUENCE, body));
      assert [0x30, 0x31] + body == [0x30, 0x31] + PREAMBLE + [0x31, 0x22, 0x04, 0x20] + exporter;
    }
  }

  lemma ShortForm(v: Tlv)
    requires Encodable(v) && v.tag < LONG_TAG && |v.body| < 128
    ensures Encode(v) == [v.cls * 64 + (if v.compound then 32 else 0) + v.tag, |v.body|] + v.body
  {
  }

  lemma {:induction false} OneByteArc(n: nat, more: seq<nat>)
    requires n < 128
    ensures Arcs([n] + more) == [n] + Arcs(more)
  {
    assert ([n] + more)[1..] == more;
  }

  lemma LongArcs()
    ensures Base128(840) == [0x86, 0x48] && Base128(113549) == [0x86, 0xf7, 0x0d]
  {
    assert Groups(6) == [0x86];
    assert Groups(887) == [0x86, 0xf7];
  }

  /** The arcs of an identifier from the fourth on. */
  function LastArcs(last: nat): seq<nat> {
    [1] + ([9] + ([16] + ([2] + [last])))
  }

  lemma ShortArcs(last: nat)
    requires last < 128
    ensures Arcs(LastArcs(last)) == [0x01, 0x09, 0x10, 0x02, last]
  {
    hide Arcs;
    assert Arcs([]) == [] by { NoArcs(); }
    OneByteArc(last, []);
    assert [last] + [] == [last];
    OneByteArc(2, [last]);
    OneByteArc(16, [2] + [last]);
    OneByteArc(9, [16] + ([2] + [last]));
    OneByteArc(1, [9] + ([16] + ([2] + [last])));
  }

  lemma NoArcs()
    ensures Arcs([]) == []
  {
  }

  lemma OidArcs(oid: Oid)
    requires BindingOid(oid)
    ensures |oid| == 9 && ValidOid(oid) && OidBody(oid) == Arcs([42] + ([840] + ([113549] + LastArcs(oid[8]))))
  {
    hide Arcs;
    OidsAreShort(oid);
    var tail := [840] + ([113549] + LastArcs(oid[8]));
    assert oid[2..] == tail;
    assert oid[0] * 40 + oid[1] == 42;
  }

  lemma OidBytes(oid: Oid)
    requires BindingOid(oid)
    ensures |oid| == 9 && oid[8] < 128 && ValidOid(oid)
    ensures OidBody(oid) == [0x2a, 0x86, 0x48, 0x86, 0xf7, 0x0d, 0x01, 0x09, 0x10, 0x02, oid[8]]
  {
    hide Base128, LastArcs, ValidOid, OidBody;
    var last := oid[8];
    LongArcs();
    ShortArcs(last);
    OidArcs(oid);
    var three := [113549] + LastArcs(last);
    var two := [840] + three;
    assert three[1..] == LastArcs(last) && two[1..] == three;
    assert Arcs(three) == [0x86, 0xf7, 0x0d] + Arcs(LastArcs(last));
    assert Arcs(two) == [0x86, 0x48] + Arcs(three);
    OneByteArc(42, two);
  }

  // ----- the decision -----

  datatype Export = Panicked | Refused | Exported(bytes: Bytes)
  datatype Connection = Connection(handshakeComplete: bool, version: nat, export_: Export)

  datatype ExporterError = ExporterMissing | NotTls13 | ExportFailed
  datatype Exporter = Live(bytes: Bytes) | Unavailable(why: ExporterError)

  /** ExtractTLSExporter. */
  function LiveExporter(state: Option<Connection>): (r: Exporter)
    ensures r.Live? <==>
      && state.Some? && state.value.handshakeComplete && state.value.version >= 0x0304
      && state.value.export_.Exported? && |state.value.export_.bytes| == 32
    ensures r.Live? ==> r.bytes == state.value.export_.bytes
    ensures r == Unavailable(NotTls13) <==>
      state.Some? && state.value.handshakeComplete && state.value.version < 0x0304
    ensures r == Unavailable(ExportFailed) <==>
      && state.Some? && state.value.handshakeComplete && state.value.version >= 0x0304
      && (state.value.export_.Refused?
          || (state.value.export_.Exported? && |state.value.export_.bytes| != 32))
    ensures r == Unavailable(ExporterMissing) <==>
      || state.None? || !state.value.handshakeComplete
      || (state.value.version >= 0x0304 && state.value.export_.Panicked?)
  {
    if state.None? || !state.value.handshakeComplete then Unavailable(ExporterMissing)
    else if state.value.version < TLS_1_3 then Unavailable(NotTls13)
    else
      match state.value.export_
      case Panicked => Unavailable(ExporterMissing)
      case Refused => Unavailable(ExportFailed)
      case Exported(bytes) => if |bytes| != EXPORTER_LENGTH then Unavailable(ExportFailed) else Live(bytes)
  }

  datatype Verdict =
    | Accepted
    | NoExporter(why: ExporterError)
    | BadCsr(malformed: Malformation)
    | BindingMissing
    | Mismatch

  /** What the connection and the request decide between them. */
  function Decision(live: Exporter, found: Extraction, required: bool): Verdict {
    match live
    case Unavailable(why) => if required || found.Found? then NoExporter(why) else Accepted
    case Live(x) =>
      match found
      case Malformed(m) => BadCsr(m)
      case Absent => if required then BindingMissing else Accepted
      case Found(y) => if x == y then Accepted else Mismatch
  }

  method VerifyChannelBinding(state: Option<Connection>, csr: Option<Bytes>, required: bool) returns (v: Verdict)
    ensures v == Decision(LiveExporter(state), Extracted(csr), required)
  {
    var live := LiveExporter(state);
    if live.Unavailable? {
      if !required {
        var found := ExtractCSRChannelBinding(csr);
        if !found.Found? { return Accepted; }
      }
      return NoExporter(live.why);
    }
    var binding := ExtractCSRChannelBinding(csr);
    if binding.Malformed? { return BadCsr(binding.why); }
    if binding.Absent? {
      if required { return BindingMissing; }
      return Accepted;
    }
    if live.bytes != binding.value { return Mismatch; }
    return Accepted;
  }

  lemma VerdictsIff(live: Exporter, found: Extraction, required: bool)
    ensures Decision(live, found, required) == Accepted <==>
      || (live.Live? && found == Found(live.bytes))
      || (!required && live.Live? && found == Absent)
      || (!required && live.Unavailable? && !found.Found?)
    ensures Decision(live, found, required) == Mismatch <==> live.Live? && found.Found? && found.value != live.bytes
    ensures Decision(live, found, required) == BindingMissing <==> required && live.Live? && found == Absent
    ensures Decision(live, found, required).BadCsr? <==> live.Live? && found.Malformed?
    ensures Decision(live, found, required).NoExporter? <==> live.Unavailable? && (required || found.Found?)
  {
  }

  lemma EmptyIsNotFound()
    ensures !InRequest([]).Found?
  {
  }

  /** With `required`, acceptance means that the exporter is there and is the value of the first
      binding attribute of a well-formed request. */
  lemma RequiredAcceptsIff(state: Option<Connection>, tbs: Bytes)
    ensures Decision(LiveExporter(state), Extracted(Some(tbs)), true) == Accepted <==>
      exists r: Request :: r.Valid() && tbs == r.Written() && LiveExporter(state) == Live(r.binding.value)
  {
    hide InRequest, Request.Valid, Request.Written, LiveExporter;
    EmptyIsNotFound();
    if LiveExporter(state).Live? { FoundIff(tbs, LiveExporter(state).bytes); }
  }

  /** A malformed request passes exactly when nothing is required and there is no exporter. */
  lemma MalformedAcceptedIff(state: Option<Connection>, csr: Option<Bytes>, required: bool)
    requires Extracted(csr).Malformed?
    ensures Decision(LiveExporter(state), Extracted(csr), required) == Accepted <==>
        !required && LiveExporter(state).Unavailable?
  {
    hide Extracted;
  }

  /** A binding made over one connection and presented over another: accepted if and only if both
      ends derived the same exporter, whether or not the profile requires bindings. */
  lemma InTheMiddle(state: Option<Connection>, r: Request, device: Bytes, required: bool)
    requires r.Valid() && Embedded(device).Some? && r.binding == Fresh(device)
    ensures var verdict := Decision(LiveExporter(state), Extracted(Some(r.Written())), required);
      && (verdict == Accepted <==> LiveExporter(state) == Live(device))
      && (verdict == Mismatch <==> LiveExporter(state).Live? && LiveExporter(state).bytes != device)
  {
    hide Extracted, Embedded, Request.Valid, Request.Written, LiveExporter;
    EmbedRoundTrip(r, device);
  }

  /** A lone SEQUENCE byte is such a request. */
  lemma MalformedExample()
    ensures Extracted(Some([0x30])).Malformed?
    ensures Decision(LiveExporter(None), Extracted(Some([0x30])), false) == Accepted
    ensures forall x: Bytes :: Decision(Live(x), Extracted(Some([0x30])), false) != Accepted
  {
    var tbs: Bytes := [0x30];
    assert tbs[1..] == [];
    assert ReadTag(tbs) == Some((Head(0, true, 16), []));
  }
}
