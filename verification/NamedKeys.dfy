/** The named API keys of the configuration: `name:key` or `name:key:admin`, comma separated.
    A name may occur with several keys while they are rotated, always with one privilege. */
module NamedKeys {
  import opened Fields

  datatype NamedKey = NamedKey(name: string, key: string, admin: bool)
  datatype ParseError = BadFormat | BadAdminFlag | BadName | EmptyKey | DuplicatePair | AdminMismatch
  datatype Parsed<+T> = Ok(value: T) | Err(error: ParseError)

  const ADMIN: string := "admin"

  predicate NameChar(c: char) {
    'a' <= c <= 'z' || 'A' <= c <= 'Z' || '0' <= c <= '9' || c == '-' || c == '_'
  }

  /** A name is made of letters, digits, hyphens and underscores. */
  predicate ValidName(s: string) {
    s != "" && forall c | c in s :: 'a' <= c <= 'z' || 'A' <= c <= 'Z' || '0' <= c <= '9' || c == '-' || c == '_'
  }

  /** isValidKeyName. */
  method IsValidKeyName(s: string) returns (ok: bool)
    ensures ok == ValidName(s)
    ensures ok <==>
      s != "" && forall c | c in s :: 'a' <= c <= 'z' || 'A' <= c <= 'Z' || '0' <= c <= '9' || c == '-' || c == '_'
  {
    if |s| == 0 { return false; }
    for i := 0 to |s|
      invariant forall c | c in s[..i] :: NameChar(c)
    {
      assert s[i] in s;
      if !NameChar(s[i]) { return false; }
      assert s[..i + 1] == s[..i] + [s[i]];
    }
    assert s[..|s|] == s;
    return true;
  }

  // ----- one entry -----

  function ParseEntry(part: string): Parsed<NamedKey> {
    var fields := Split(part, ':');
    if |fields| < 2 || |fields| > 3 then Err(BadFormat)
    else if |fields| == 3 && Trim(fields[2]) != ADMIN then Err(BadAdminFlag)
    else if !ValidName(Trim(fields[0])) then Err(BadName)
    else if Trim(fields[1]) == "" then Err(EmptyKey)
    else Ok(NamedKey(Trim(fields[0]), Trim(fields[1]), |fields| == 3))
  }

  /** Two or three colon-separated fields that read, without their surrounding blanks, as `k`. */
  predicate Reads(fields: seq<string>, k: NamedKey) {
    && |fields| == (if k.admin then 3 else 2) && Free(fields, ':')
    && Trim(fields[0]) == k.name && Trim(fields[1]) == k.key && (k.admin ==> Trim(fields[2]) == "admin")
  }

  lemma EntryIff(part: string, k: NamedKey)
    ensures ParseEntry(part) == Ok(k) <==>
      ValidName(k.name) && k.key != "" && exists fields :: Reads(fields, k) && part == Join(fields, ':')
  {
    hide Split, Join, Trim, Free, ValidName;
    var fs := Split(part, ':');
    SplitIff(part, ':', fs);
    if ParseEntry(part) == Ok(k) { assert Reads(fs, k) && part == Join(fs, ':'); }
    if fields :| Reads(fields, k) && part == Join(fields, ':') { SplitIff(part, ':', fields); }
  }

  function Colons(s: string): nat {
    if s == [] then 0 else Colons(s[..|s| - 1]) + if s[|s| - 1] == ':' then 1 else 0
  }

  lemma {:induction false} OneMorePart(s: string)
    ensures |Split(s, ':')| == Colons(s) + 1
  {
    if s != [] { OneMorePart(s[..|s| - 1]); }
  }

  lemma {:induction false} FormatIff(part: string)
    ensures ParseEntry(part) == Err(BadFormat) <==> Colons(part) != 1 && Colons(part) != 2
  {
    hide Split, Trim, ValidName;
    OneMorePart(part);
  }

  /** What is wrong with the fields of an entry, in the order in which it is noticed. */
  predicate Wrong(fields: seq<string>, e: ParseError) {
    var counted := |fields| == 2 || |fields| == 3;
    var flagged := counted && (|fields| == 3 ==> Trim(fields[2]) == "admin");
    match e
    case BadFormat => !counted
    case BadAdminFlag => counted && !flagged
    case BadName => flagged && !ValidName(Trim(fields[0]))
    case EmptyKey => flagged && ValidName(Trim(fields[0])) && Trim(fields[1]) == ""
    case _ => false
  }

  ghost predicate Misread(part: string, e: ParseError) {
    exists fields :: fields != [] && Free(fields, ':') && part == Join(fields, ':') && Wrong(fields, e)
  }

  /** Each error of a single entry, exactly. */
  lemma EntryErrorIff(part: string, e: ParseError)
    ensures ParseEntry(part) == Err(e) <==> Misread(part, e)
  {
    hide Split, Join, Trim, Free, ValidName;
    var fs := Split(part, ':');
    SplitIff(part, ':', fs);
    if ParseEntry(part) == Err(e) { assert Wrong(fs, e); }
    if fields :| fields != [] && Free(fields, ':') && part == Join(fields, ':') && Wrong(fields, e) {
      SplitIff(part, ':', fields);
    }
  }

  // ----- the list -----

  /** What may stand next to each other: no pair twice, one privilege per name. */
  predicate Fits(keys: seq<NamedKey>, k: NamedKey) {
    forall p | p in keys :: p.name == k.name ==> p.key != k.key && p.admin == k.admin
  }

  predicate Consistent(keys: seq<NamedKey>) {
    forall i, j | 0 <= i < j < |keys| ::
      keys[i].name == keys[j].name ==> keys[i].key != keys[j].key && keys[i].admin == keys[j].admin
  }

  function Clash(keys: seq<NamedKey>, k: NamedKey): ParseError {
    if exists p :: p in keys && p.name == k.name && p.key == k.key then DuplicatePair else AdminMismatch
  }

  /** The trimmed parts that are not blank. */
  function Entries(parts: seq<string>): seq<string> {
    if parts == [] then []
    else
      var n := |parts| - 1;
      if Trim(parts[n]) == "" then Entries(parts[..n]) else Entries(parts[..n]) + [Trim(parts[n])]
  }

  /** Wherever a part stands, it counts without its surrounding blanks, and not at all if it is blank. */
  lemma {:induction false} EntriesAround(before: seq<string>, part: string, after: seq<string>)
    ensures Entries(before + [part] + after) ==
      Entries(before) + (if Blanks(part) then [] else [Trim(part)]) + Entries(after)
  {
    hide Trim;
    if after == [] {
      var parts := before + [part];
      assert before + [part] + after == parts && parts[..|before|] == before;
      if Blanks(part) { AllBlank(part); } else { NotAllBlank(part); }
    } else {
      var n := |after| - 1;
      var parts := before + [part] + after;
      EntriesAround(before, part, after[..n]);
      assert parts[..|parts| - 1] == before + [part] + after[..n];
    }
  }

  lemma {:induction false} NotAllBlank(part: string)
    requires !Blanks(part)
    ensures Trim(part) != ""
  {
    hide Trim;
    var left, right := TrimParts(part);
  }

  function Fold(entries: seq<string>): Parsed<seq<NamedKey>> {
    if entries == [] then Ok([])
    else
      var n := |entries| - 1;
      var before := Fold(entries[..n]);
      if before.Err? then before
      else
        var k := ParseEntry(entries[n]);
        if k.Err? then Err(k.error)
        else if Fits(before.value, k.value) then Ok(before.value + [k.value])
        else Err(Clash(before.value, k.value))
  }

  function Parse(input: string): Parsed<seq<NamedKey>> {
    Fold(Entries(Split(input, ',')))
  }

  predicate AllRead(entries: seq<string>, keys: seq<NamedKey>) {
    |entries| == |keys| && forall i | 0 <= i < |keys| :: ParseEntry(entries[i]) == Ok(keys[i])
  }

  lemma ConsistentSnoc(keys: seq<NamedKey>, k: NamedKey)
    ensures Consistent(keys + [k]) <==> Consistent(keys) && Fits(keys, k)
  {
    var keys' := keys + [k];
    assert forall i | 0 <= i < |keys| :: keys'[i] == keys[i] && keys[i] in keys;
    assert keys'[|keys|] == k;
  }

  lemma {:induction false} FoldIff(entries: seq<string>, keys: seq<NamedKey>)
    ensures Fold(entries) == Ok(keys) <==> AllRead(entries, keys) && Consistent(keys)
  {
    hide ParseEntry, Fits, Consistent;
    if entries == [] {
      assert Consistent([]) by { NoneIsConsistent(); }
    } else if keys != [] {
      var n, m := |entries| - 1, |keys| - 1;
      FoldIff(entries[..n], keys[..m]);
      assert keys == keys[..m] + [keys[m]];
      ConsistentSnoc(keys[..m], keys[m]);
      if Fold(entries) == Ok(keys) {
        var before := Fold(entries[..n]).value;
        assert before == (before + [keys[m]])[..m];
      }
    }
  }

  lemma NoneIsConsistent()
    ensures Consistent([])
  {
  }

  /** Soundness and completeness: `keys` is accepted if and only if the entries read as `keys`, in
      order, no (name, key) pair occurs twice and every name has one privilege. */
  lemma {:induction false} ParseIff(input: string, keys: seq<NamedKey>)
    ensures Parse(input) == Ok(keys) <==> AllRead(Entries(Split(input, ',')), keys) && Consistent(keys)
  {
    FoldIff(Entries(Split(input, ',')), keys);
  }

  /** A key that repeats an earlier pair, or gives an earlier name another privilege without doing so. */
  ghost predicate Objects(keys: seq<NamedKey>, k: NamedKey, e: ParseError) {
    var repeated := exists p :: p in keys && p.name == k.name && p.key == k.key;
    var mixed := exists p :: p in keys && p.name == k.name && p.admin != k.admin;
    (e == DuplicatePair && repeated) || (e == AdminMismatch && !repeated && mixed)
  }

  lemma ObjectsIff(keys: seq<NamedKey>, k: NamedKey, e: ParseError)
    ensures Objects(keys, k, e) <==> !Fits(keys, k) && e == Clash(keys, k)
  {
  }

  /** The error is that of the first entry that does not read or does not fit what precedes it. */
  ghost predicate Offends(entries: seq<string>, i: nat, keys: seq<NamedKey>, e: ParseError)
    requires i < |entries|
  {
    && AllRead(entries[..i], keys) && Consistent(keys)
    && (Misread(entries[i], e) || exists k :: ParseEntry(entries[i]) == Ok(k) && Objects(keys, k, e))
  }

  lemma OffendsIff(entries: seq<string>, i: nat, keys: seq<NamedKey>, e: ParseError)
    requires i < |entries|
    ensures Offends(entries, i, keys, e) <==>
      && AllRead(entries[..i], keys) && Consistent(keys)
      && (var k := ParseEntry(entries[i]);
          k == Err(e) || (k.Ok? && !Fits(keys, k.value) && e == Clash(keys, k.value)))
  {
    hide ParseEntry, Misread, Objects, Fits, Clash, Consistent;
    EntryErrorIff(entries[i], e);
    if ParseEntry(entries[i]).Ok? { ObjectsIff(keys, ParseEntry(entries[i]).value, e); }
  }

  lemma {:induction false} FirstOffender(entries: seq<string>) returns (i: nat, keys: seq<NamedKey>)
    requires Fold(entries).Err?
    ensures i < |entries| && Offends(entries, i, keys, Fold(entries).error)
  {
    hide ParseEntry, Clash, Fits, Misread, Objects;
    var n := |entries| - 1;
    if Fold(entries[..n]).Err? {
      i, keys := FirstOffender(entries[..n]);
      assert entries[..n][..i] == entries[..i];
    } else {
      i, keys := n, Fold(entries[..n]).value;
      FoldIff(entries[..n], keys);
      OffendsIff(entries, i, keys, Fold(entries).error);
    }
  }

  lemma {:induction false} OffenderDecides(entries: seq<string>, i: nat, keys: seq<NamedKey>, e: ParseError)
    requires i < |entries| && Offends(entries, i, keys, e)
    ensures Fold(entries) == Err(e)
  {
    hide ParseEntry, Clash, Fits, Misread, Objects;
    var n := |entries| - 1;
    if i < n {
      assert entries[..n][..i] == entries[..i];
      OffenderDecides(entries[..n], i, keys, e);
    } else {
      FoldIff(entries[..n], keys);
      OffendsIff(entries, i, keys, e);
    }
  }

  ghost predicate Fails(entries: seq<string>, e: ParseError) {
    exists i: nat, keys | i < |entries| :: Offends(entries, i, keys, e)
  }

  lemma {:induction false} ParseErrorIff(input: string, e: ParseError)
    ensures Parse(input) == Err(e) <==> Fails(Entries(Split(input, ',')), e)
  {
    hide Fold, Offends, Split, Entries;
    var entries := Entries(Split(input, ','));
    if Parse(input) == Err(e) {
      var i, keys := FirstOffender(entries);
      assert Offends(entries, i, keys, e);
    }
    if Fails(entries, e) {
      var i: nat, keys :| i < |entries| && Offends(entries, i, keys, e);
      OffenderDecides(entries, i, keys, e);
    }
  }

  // ----- the loop -----

  /** The key under which a pair is remembered. */
  function PairKey(k: NamedKey): string {
    k.name + "\0" + k.key
  }

  lemma {:induction false} FirstNul(a: string, x: string, b: string, y: string)
    requires '\0' !in a && '\0' !in b
    ensures a + "\0" + x == b + "\0" + y ==> a == b && x == y
  {
    var s, t := a + "\0" + x, b + "\0" + y;
    if a == [] { assert s[0] == '\0' && s[1..] == x; }
    if b == [] { assert t[0] == '\0' && t[1..] == y; }
    if a != [] { assert a[0] in a && s[0] == a[0] && s[1..] == a[1..] + "\0" + x && a == [a[0]] + a[1..]; }
    if b != [] { assert b[0] in b && t[0] == b[0] && t[1..] == b[1..] + "\0" + y && b == [b[0]] + b[1..]; }
    if a != [] && b != [] {
      assert (forall c | c in a[1..] :: c in a) && (forall c | c in b[1..] :: c in b);
      FirstNul(a[1..], x, b[1..], y);
    }
  }

  /** A valid name holds no NUL, so the joined pair identifies the pair. */
  lemma PairKeyInjective(a: NamedKey, b: NamedKey)
    requires ValidName(a.name) && ValidName(b.name)
    ensures PairKey(a) == PairKey(b) <==> a.name == b.name && a.key == b.key
  {
    FirstNul(a.name, a.key, b.name, b.key);
  }

  method ReadEntry(part: string) returns (r: Parsed<NamedKey>)
    ensures r == ParseEntry(part)
  {
    hide Split, Trim, ValidName;
    var fields := Split(part, ':');
    if |fields| < 2 || |fields| > 3 { return Err(BadFormat); }
    var name := TrimSpace(fields[0]);
    var key := TrimSpace(fields[1]);
    var admin := false;
    if |fields| == 3 {
      var flag := TrimSpace(fields[2]);
      if flag == ADMIN { admin := true; } else { return Err(BadAdminFlag); }
    }
    var valid := IsValidKeyName(name);
    if !valid { return Err(BadName); }
    if key == "" { return Err(EmptyKey); }
    return Ok(NamedKey(name, key, admin));
  }

  ghost function NamesOf(keys: seq<NamedKey>): set<string> {
    set k | k in keys :: k.name
  }

  ghost function PairsOf(keys: seq<NamedKey>): set<string> {
    set k | k in keys :: PairKey(k)
  }

  /** What the three tables hold after the keys so far. */
  ghost predicate Recorded(keys: seq<NamedKey>, nameSeen: set<string>, nameToAdmin: map<string, bool>,
    pairSeen: set<string>) {
    && Consistent(keys) && (forall k | k in keys :: ValidName(k.name))
    && nameSeen == nameToAdmin.Keys == NamesOf(keys) && pairSeen == PairsOf(keys)
    && (forall k | k in keys :: k.name in nameToAdmin && nameToAdmin[k.name] == k.admin)
  }

  lemma TablesDecide(keys: seq<NamedKey>, nameSeen: set<string>, nameToAdmin: map<string, bool>, pairSeen: set<string>,
      k: NamedKey)
    requires Recorded(keys, nameSeen, nameToAdmin, pairSeen) && ValidName(k.name)
    ensures PairKey(k) in pairSeen <==> exists p :: p in keys && p.name == k.name && p.key == k.key
    ensures Fits(keys, k) <==> PairKey(k) !in pairSeen && (k.name in nameSeen ==> nameToAdmin[k.name] == k.admin)
  {
    hide ValidName, PairKey, Consistent;
    forall p | p in keys
      ensures PairKey(p) == PairKey(k) <==> p.name == k.name && p.key == k.key
    {
      PairKeyInjective(p, k);
    }
  }

  lemma SetsGrow(keys: seq<NamedKey>, k: NamedKey)
    ensures NamesOf(keys + [k]) == NamesOf(keys) + {k.name} && PairsOf(keys + [k]) == PairsOf(keys) + {PairKey(k)}
  {
    hide PairKey;
    var keys' := keys + [k];
    assert k in keys' && (forall p | p in keys' :: p in keys || p == k) && forall p | p in keys :: p in keys';
  }

  lemma TablesGrow(keys: seq<NamedKey>, nameSeen: set<string>, nameToAdmin: map<string, bool>, pairSeen: set<string>,
      k: NamedKey)
    requires Recorded(keys, nameSeen, nameToAdmin, pairSeen) && ValidName(k.name) && Fits(keys, k)
    ensures Recorded(keys + [k], nameSeen + {k.name}, nameToAdmin[k.name := k.admin], pairSeen + {PairKey(k)})
  {
    hide ValidName, PairKey, Consistent, NamesOf, PairsOf;
    ConsistentSnoc(keys, k);
    SetsGrow(keys, k);
    assert forall p | p in keys + [k] :: p in keys || p == k;
  }

  lemma EntryIsValid(part: string)
    requires ParseEntry(part).Ok?
    ensures ValidName(ParseEntry(part).value.name)
  {
  }

  lemma {:induction false} FoldStops(entries: seq<string>, more: seq<string>)
    requires Fold(entries).Err?
    ensures Fold(entries + more) == Fold(entries)
  {
    hide ParseEntry, Fits, Clash;
    if more == [] {
      assert entries + more == entries;
    } else {
      var n := |more| - 1;
      FoldStops(entries, more[..n]);
      assert (entries + more)[..|entries + more| - 1] == entries + more[..n];
    }
  }

  lemma {:induction false} EntriesExtend(parts: seq<string>, i: nat) returns (more: seq<string>)
    requires i <= |parts|
    ensures Entries(parts) == Entries(parts[..i]) + more
  {
    hide Trim;
    if i == |parts| {
      more := [];
      assert parts[..i] == parts;
    } else {
      var n := |parts| - 1;
      more := EntriesExtend(parts[..n], i);
      assert parts[..n][..i] == parts[..i];
      if Trim(parts[n]) != "" { more := more + [Trim(parts[n])]; }
    }
  }

  lemma {:induction false} Stops(parts: seq<string>, i: nat)
    requires i <= |parts| && Fold(Entries(parts[..i])).Err?
    ensures Fold(Entries(parts)) == Fold(Entries(parts[..i]))
  {
    hide Fold, Entries;
    var more := EntriesExtend(parts, i);
    FoldStops(Entries(parts[..i]), more);
  }

  lemma OnePart(parts: seq<string>, i: nat)
    requires i < |parts|
    ensures Entries(parts[..i + 1]) == if Trim(parts[i]) == "" then Entries(parts[..i])
        else Entries(parts[..i]) + [Trim(parts[i])]
  {
    hide Trim;
    assert parts[..i + 1][..i] == parts[..i];
  }

  lemma {:induction false} OneEntry(entries: seq<string>, e: string)
    requires Fold(entries).Ok?
    ensures var k := ParseEntry(e);
      Fold(entries + [e]) ==
        if k.Err? then Err(k.error)
        else if Fits(Fold(entries).value, k.value) then Ok(Fold(entries).value + [k.value])
        else Err(Clash(Fold(entries).value, k.value))
  {
    hide ParseEntry, Fits, Clash;
    assert (entries + [e])[..|entries|] == entries;
  }

  /** ParseNamedAPIKeys. */
  method ParseNamedAPIKeys(input: string) returns (r: Parsed<seq<NamedKey>>)
    ensures r == Parse(input)
  {
    hide Split, Trim, ParseEntry, Fold, Entries, Recorded, Fits, PairKey, ValidName;
    if input == "" {
      EmptyInput();
      return Ok([]);
    }
    var parts := SplitComma(input);
    var keys: seq<NamedKey> := [];
    var nameToAdmin: map<string, bool> := map[];
    var nameSeen: set<string> := {};
    var pairSeen: set<string> := {};
    NothingRead(parts);
    for i := 0 to |parts|
      invariant Fold(Entries(parts[..i])) == Ok(keys)
      invariant Recorded(keys, nameSeen, nameToAdmin, pairSeen)
    {
      OnePart(parts, i);
      var part := TrimSpace(parts[i]);
      if part == "" { continue; }
      OneEntry(Entries(parts[..i]), part);
      var k := ReadEntry(part);
      if k.Err? {
        Stops(parts, i + 1);
        return Err(k.error);
      }
      EntryIsValid(part);
      var key := k.value;
      TablesDecide(keys, nameSeen, nameToAdmin, pairSeen, key);
      NamesRecorded(keys, nameSeen, nameToAdmin, pairSeen);
      if PairKey(key) in pairSeen {
        Stops(parts, i + 1);
        return Err(DuplicatePair);
      }
      if key.name in nameSeen && nameToAdmin[key.name] != key.admin {
        Stops(parts, i + 1);
        return Err(AdminMismatch);
      }
      TablesGrow(keys, nameSeen, nameToAdmin, pairSeen, key);
      if key.name in nameSeen {
        assert nameToAdmin == nameToAdmin[key.name := key.admin] && nameSeen == nameSeen + {key.name};
      } else {
        nameSeen := nameSeen + {key.name};
        nameToAdmin := nameToAdmin[key.name := key.admin];
      }
      pairSeen := pairSeen + {PairKey(key)};
      keys := keys + [key];
    }
    assert parts[..|parts|] == parts;
    return Ok(keys);
  }

  lemma NamesRecorded(keys: seq<NamedKey>, nameSeen: set<string>, nameToAdmin: map<string, bool>, pairSeen: set<string>)
    requires Recorded(keys, nameSeen, nameToAdmin, pairSeen)
    ensures nameSeen == nameToAdmin.Keys
  {
  }

  lemma NothingRead(parts: seq<string>)
    ensures Fold(Entries(parts[..0])) == Ok([])
    ensures Recorded([], {}, map[], {})
  {
  }

  lemma EmptyInput()
    ensures Parse("") == Ok([])
  {
    assert Split("", ',') == [""];
    assert [""][..0] == [];
  }

  // ----- printing -----

  function PrintKey(k: NamedKey): string {
    Join(FieldsOf(k), ':')
  }

  function FieldsOf(k: NamedKey): seq<string> {
    if k.admin then [k.name, k.key, ADMIN] else [k.name, k.key]
  }

  function Print(keys: seq<NamedKey>): string {
    if keys == [] then "" else Join(PrintAll(keys), ',')
  }

  function PrintAll(keys: seq<NamedKey>): (r: seq<string>)
    ensures |r| == |keys|
  {
    seq(|keys|, i requires 0 <= i < |keys| => PrintKey(keys[i]))
  }

  /** What an accepted key looks like. */
  predicate Printable(k: NamedKey) {
    ValidName(k.name) && k.key != "" && Trimmed(k.key) && ',' !in k.key && ':' !in k.key
  }

  predicate AllPrintable(keys: seq<NamedKey>) {
    forall k | k in keys :: Printable(k)
  }

  lemma NamesArePlain(name: string)
    requires ValidName(name)
    ensures Trimmed(name) && ':' !in name && ',' !in name
  {
    assert name[0] in name && name[|name| - 1] in name;
  }

  lemma AdminIsPlain()
    ensures Trimmed(ADMIN) && ':' !in ADMIN
  {
  }

  lemma KeyReadsBack(k: NamedKey)
    requires Printable(k)
    ensures ParseEntry(PrintKey(k)) == Ok(k)
  {
    hide ParseEntry, ValidName, Trim, Trimmed, Join;
    NamesArePlain(k.name);
    TrimOfTrimmed(k.name);
    TrimOfTrimmed(k.key);
    AdminIsPlain();
    TrimOfTrimmed(ADMIN);
    var fields := FieldsOf(k);
    assert Free(fields, ':') && Reads(fields, k) && PrintKey(k) == Join(fields, ':');
    EntryIff(PrintKey(k), k);
  }

  lemma PrintKeyIs(k: NamedKey)
    ensures PrintKey(k) == k.name + [':'] + k.key + (if k.admin then [':'] + ADMIN else [])
  {
    var short, two := k.name + [':'] + k.key, [k.name, k.key];
    assert two[..1] == [k.name] && Join([k.name], ':') == k.name;
    assert Join(two, ':') == short;
    if k.admin {
      assert FieldsOf(k)[..2] == two;
      assert PrintKey(k) == short + [':'] + ADMIN == short + ([':'] + ADMIN);
    }
  }

  lemma PrintTwo(a: NamedKey, b: NamedKey)
    ensures Print([a, b]) == PrintKey(a) + [','] + PrintKey(b)
  {
    hide PrintKey;
    var parts := PrintAll([a, b]);
    assert parts[..1] == [PrintKey(a)] && Join([PrintKey(a)], ',') == PrintKey(a);
  }

  lemma PrintedIsOnePart(k: NamedKey)
    requires Printable(k)
    ensures PrintKey(k) != "" && Trimmed(PrintKey(k)) && ',' !in PrintKey(k)
  {
    hide PrintKey;
    NamesArePlain(k.name);
    PrintKeyIs(k);
  }

  lemma {:induction false} AllAreEntries(parts: seq<string>)
    requires forall p | p in parts :: p != "" && Trimmed(p)
    ensures Entries(parts) == parts
  {
    hide Trim, Trimmed;
    if parts != [] {
      var n := |parts| - 1;
      assert parts[n] in parts && forall p | p in parts[..n] :: p in parts;
      AllAreEntries(parts[..n]);
      TrimOfTrimmed(parts[n]);
      assert parts == parts[..n] + [parts[n]];
    }
  }

  /** Printing and parsing: every list of printable keys that is consistent comes back, in order. */
  lemma PrintParse(keys: seq<NamedKey>)
    requires AllPrintable(keys) && Consistent(keys)
    ensures Parse(Print(keys)) == Ok(keys)
  {
    hide Split, Entries, ParseEntry, PrintKey, Printable, Trimmed, Consistent, Fold, Join;
    if keys == [] {
      EmptyInput();
    } else {
      var parts := PrintAll(keys);
      forall p | p in parts ensures p != "" && Trimmed(p) && ',' !in p {
        var i :| 0 <= i < |keys| && p == parts[i];
        assert keys[i] in keys;
        PrintedIsOnePart(keys[i]);
      }
      SplitJoin(parts, ',');
      AllAreEntries(parts);
      forall i | 0 <= i < |keys| ensures ParseEntry(parts[i]) == Ok(keys[i]) {
        assert keys[i] in keys;
        KeyReadsBack(keys[i]);
      }
      ParseIff(Print(keys), keys);
    }
  }

  lemma {:induction false} EntriesChars(parts: seq<string>, e: string, c: char)
    requires e in Entries(parts) && c in e
    ensures exists p :: p in parts && c in p
  {
    hide Trim;
    var n := |parts| - 1;
    if e in Entries(parts[..n]) {
      EntriesChars(parts[..n], e, c);
      var p :| p in parts[..n] && c in p;
      assert p in parts;
    } else {
      TrimChars(parts[n], c);
      assert parts[n] in parts;
    }
  }

  lemma EntryKeyChars(part: string, c: char)
    requires ParseEntry(part).Ok? && c in ParseEntry(part).value.key
    ensures c in part && c != ':'
  {
    hide Trim, Split, ValidName;
    var fields := Split(part, ':');
    TrimChars(fields[1], c);
    assert fields[1] in fields;
    SplitChars(part, ':', fields[1], c);
    SplitIsFree(part, ':');
  }

  lemma {:induction false} EntryPrintable(input: string, e: string)
    requires e in Entries(Split(input, ',')) && ParseEntry(e).Ok?
    ensures Printable(ParseEntry(e).value)
  {
    hide Trim, Split, Entries, ValidName, Trimmed;
    var k := ParseEntry(e).value;
    var l, r := TrimParts(Split(e, ':')[1]);
    forall c | c in k.key ensures c != ',' && c != ':' {
      hide ParseEntry;
      EntryKeyChars(e, c);
      EntriesChars(Split(input, ','), e, c);
      var p :| p in Split(input, ',') && c in p;
      SplitIsFree(input, ',');
    }
  }

  /** Whatever is accepted could have been printed, and printing it normalises the input. */
  lemma ParsePrint(input: string)
    requires Parse(input).Ok?
    ensures AllPrintable(Parse(input).value) && Consistent(Parse(input).value)
    ensures Parse(Print(Parse(input).value)) == Parse(input)
  {
    hide Split, Entries, ParseEntry, Printable, Fold, Consistent, Print;
    var keys := Parse(input).value;
    var entries := Entries(Split(input, ','));
    ParseIff(input, keys);
    forall k | k in keys ensures Printable(k) {
      var i :| 0 <= i < |keys| && k == keys[i];
      assert entries[i] in entries && ParseEntry(entries[i]) == Ok(k);
      EntryPrintable(input, entries[i]);
    }
    PrintParse(keys);
  }
}
