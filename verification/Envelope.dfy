/** Encrypted configuration at rest: three blob formats that a reader tells apart by trial.
    v1 is nonce || sealed; v2 and v3 are magic || salt || nonce || sealed. */
module Envelope {
  import opened Data

  const KEY_SIZE: nat := 32
  const NONCE_SIZE: nat := 12
  const SALT_SIZE: nat := 16
  const HEADER_SIZE: nat := 1 + SALT_SIZE
  const V2_MAGIC: Byte := 0x02
  const V3_MAGIC: Byte := 0x03
  const ROUNDS_V1_V2: nat := 100000
  const ROUNDS_V3: nat := 600000
  /** The bytes of "certctl-config-encryption-v1". */
  const LEGACY_SALT: Bytes := [99, 101, 114, 116, 99, 116, 108, 45, 99, 111, 110, 102, 105, 103, 45,
    101, 110, 99, 114, 121, 112, 116, 105, 111, 110, 45, 118, 49]

  type Salt = s: Bytes | |s| == SALT_SIZE witness seq(SALT_SIZE, _ => 0)
  type Nonce = n: Bytes | |n| == NONCE_SIZE witness seq(NONCE_SIZE, _ => 0)

  /** PBKDF2 and AES-GCM as functions. */
  datatype Crypto = Crypto(
    kdf: (string, Bytes, nat) -> Bytes,
    seal: (Bytes, Bytes, Bytes) -> Bytes,
    open: (Bytes, Bytes, Bytes) -> Option<Bytes>)

  datatype Sealing = Sealing(key: Bytes, nonce: Bytes, plaintext: Bytes)

  /** Ideal encryption: what was sealed opens, and nothing else does. */
  ghost predicate Ideal(c: Crypto, log: set<Sealing>) {
    && (forall pass, salt, rounds :: |c.kdf(pass, salt, rounds)| == KEY_SIZE)
    && (forall t | t in log :: c.open(t.key, t.nonce, c.seal(t.key, t.nonce, t.plaintext)) == Some(t.plaintext))
    && (forall k, n, x | c.open(k, n, x).Some? ::
          var p := c.open(k, n, x).value; Sealing(k, n, p) in log && x == c.seal(k, n, p))
  }

  // ----- the formats -----

  datatype Version = V1 | V2 | V3

  function KeyFor(c: Crypto, v: Version, pass: string, salt: Salt): Bytes {
    match v
    case V1 => c.kdf(pass, LEGACY_SALT, ROUNDS_V1_V2)
    case V2 => c.kdf(pass, salt, ROUNDS_V1_V2)
    case V3 => c.kdf(pass, salt, ROUNDS_V3)
  }

  function Header(v: Version, salt: Salt): Bytes {
    match v
    case V1 => []
    case V2 => [V2_MAGIC] + salt
    case V3 => [V3_MAGIC] + salt
  }

  /** The blob a writer of version `v` stores. */
  function Blob(c: Crypto, v: Version, pass: string, salt: Salt, nonce: Nonce, plaintext: Bytes): Bytes {
    Header(v, salt) + (nonce + c.seal(KeyFor(c, v, pass, salt), nonce, plaintext))
  }

  function Seal(c: Crypto, v: Version, pass: string, salt: Salt, nonce: Nonce, plaintext: Bytes): Sealing {
    Sealing(KeyFor(c, v, pass, salt), nonce, plaintext)
  }

  // ----- writing -----

  datatype Failure = KeyRequired | BadKeySize | NoRandomness | EmptyBlob | TooShort | NotAuthentic
  datatype Outcome<+T> = Done(value: T) | Failed(why: Failure)

  function Encrypt(c: Crypto, plaintext: Bytes, key: Bytes, nonce: Option<Nonce>): Outcome<Bytes> {
    if |key| != KEY_SIZE then Failed(BadKeySize)
    else if nonce.None? then Failed(NoRandomness)
    else Done(nonce.value + c.seal(key, nonce.value, plaintext))
  }

  /** EncryptIfKeySet, given what the random source returned: always a v3 blob, or no blob. */
  method EncryptIfKeySet(c: Crypto, plaintext: Bytes, pass: string, salt: Option<Salt>, nonce: Option<Nonce>)
      returns (r: Outcome<Bytes>)
    requires forall salt: Bytes, rounds :: |c.kdf(pass, salt, rounds)| == KEY_SIZE
    ensures r.Done? <==> pass != "" && salt.Some? && nonce.Some?
    ensures r.Done? ==>
      && r.value == Blob(c, V3, pass, salt.value, nonce.value, plaintext)
      && r.value == [0x03] + salt.value + nonce.value +
                    c.seal(c.kdf(pass, salt.value, 600000), nonce.value, plaintext)
    ensures r == Failed(KeyRequired) <==> pass == ""
  {
    if pass == "" { return Failed(KeyRequired); }
    if salt.None? { return Failed(NoRandomness); }
    var key := c.kdf(pass, salt.value, ROUNDS_V3);
    var inner := Encrypt(c, plaintext, key, nonce);
    if inner.Failed? { return inner; }
    var blob: Bytes := [];
    blob := blob + [V3_MAGIC];
    blob := blob + salt.value;
    blob := blob + inner.value;
    return Done(blob);
  }

  // ----- reading -----

  function Decrypt(c: Crypto, ciphertext: Bytes, key: Bytes): Outcome<Bytes> {
    if |key| != KEY_SIZE then Failed(BadKeySize)
    else if |ciphertext| < NONCE_SIZE then Failed(TooShort)
    else
      var p := c.open(key, ciphertext[..NONCE_SIZE], ciphertext[NONCE_SIZE..]);
      if p.None? then Failed(NotAuthentic) else Done(p.value)
  }

  /** The blob read as a v2 or v3 blob, when its first byte and length allow it. */
  function ReadVersioned(c: Crypto, blob: Bytes, magic: Byte, rounds: nat, pass: string): Option<Bytes> {
    if blob == [] || blob[0] != magic || |blob| < HEADER_SIZE + NONCE_SIZE then None
    else
      var r := Decrypt(c, blob[HEADER_SIZE..], c.kdf(pass, blob[1..HEADER_SIZE], rounds));
      if r.Done? then Some(r.value) else None
  }

  /** DecryptIfKeySet. */
  function DecryptIfKeySet(c: Crypto, blob: Bytes, pass: string): Outcome<Bytes> {
    if pass == "" then Failed(KeyRequired)
    else if blob == [] then Failed(EmptyBlob)
    else
      var v3 := ReadVersioned(c, blob, V3_MAGIC, ROUNDS_V3, pass);
      if v3.Some? then Done(v3.value)
      else
        var v2 := ReadVersioned(c, blob, V2_MAGIC, ROUNDS_V1_V2, pass);
        if v2.Some? then Done(v2.value)
        else Decrypt(c, blob, c.kdf(pass, LEGACY_SALT, ROUNDS_V1_V2))
  }

  // ----- what reading means -----

  /** Under the passphrase, `blob` is a stored blob of version `v` for `plaintext`. */
  ghost predicate Stored(c: Crypto, log: set<Sealing>, pass: string, v: Version, blob: Bytes, plaintext: Bytes) {
    exists salt: Salt, nonce: Nonce ::
      Seal(c, v, pass, salt, nonce, plaintext) in log && blob == Blob(c, v, pass, salt, nonce, plaintext)
  }

  lemma DecryptIff(c: Crypto, log: set<Sealing>, ciphertext: Bytes, key: Bytes, p: Bytes)
    requires Ideal(c, log) && |key| == KEY_SIZE
    ensures Decrypt(c, ciphertext, key) == Done(p) <==>
      exists nonce: Nonce :: Sealing(key, nonce, p) in log && ciphertext == nonce + c.seal(key, nonce, p)
  {
    if Decrypt(c, ciphertext, key) == Done(p) {
      var nonce: Nonce := ciphertext[..NONCE_SIZE];
      assert ciphertext == nonce + ciphertext[NONCE_SIZE..];
      assert Sealing(key, nonce, p) in log && ciphertext == nonce + c.seal(key, nonce, p);
    }
    if nonce: Nonce :| Sealing(key, nonce, p) in log && ciphertext == nonce + c.seal(key, nonce, p) {
      assert ciphertext[..NONCE_SIZE] == nonce && ciphertext[NONCE_SIZE..] == c.seal(key, nonce, p);
    }
  }

  function Magic(v: Version): Byte {
    if v == V3 then V3_MAGIC else V2_MAGIC
  }

  function Rounds(v: Version): nat {
    if v == V3 then ROUNDS_V3 else ROUNDS_V1_V2
  }

  /** Trying a version succeeds exactly on the stored blobs of that version. */
  lemma VersionedIff(c: Crypto, log: set<Sealing>, v: Version, blob: Bytes, pass: string, p: Bytes)
    requires Ideal(c, log) && v != V1
    ensures ReadVersioned(c, blob, Magic(v), Rounds(v), pass) == Some(p) <==> Stored(c, log, pass, v, blob, p)
  {
    hide Decrypt, Ideal;
    KeysFit(c, log);
    if ReadVersioned(c, blob, Magic(v), Rounds(v), pass) == Some(p) {
      var salt: Salt := blob[1..HEADER_SIZE];
      var key := c.kdf(pass, salt, Rounds(v));
      assert key == KeyFor(c, v, pass, salt);
      DecryptIff(c, log, blob[HEADER_SIZE..], key, p);
      var nonce: Nonce :| Sealing(key, nonce, p) in log && blob[HEADER_SIZE..] == nonce + c.seal(key, nonce, p);
      assert blob == [blob[0]] + salt + blob[HEADER_SIZE..];
      assert Seal(c, v, pass, salt, nonce, p) in log && blob == Blob(c, v, pass, salt, nonce, p);
    }
    if salt: Salt, nonce: Nonce :| Seal(c, v, pass, salt, nonce, p) in log && blob == Blob(c, v, pass, salt, nonce, p) {
      var key := KeyFor(c, v, pass, salt);
      assert blob[1..HEADER_SIZE] == salt && blob[HEADER_SIZE..] == nonce + c.seal(key, nonce, p);
      DecryptIff(c, log, blob[HEADER_SIZE..], key, p);
    }
  }

  lemma KeysFit(c: Crypto, log: set<Sealing>)
    requires Ideal(c, log)
    ensures forall pass, salt, rounds :: |c.kdf(pass, salt, rounds)| == KEY_SIZE
  {
  }

  lemma LegacyIff(c: Crypto, log: set<Sealing>, blob: Bytes, pass: string, p: Bytes)
    requires Ideal(c, log)
    ensures Decrypt(c, blob, c.kdf(pass, LEGACY_SALT, ROUNDS_V1_V2)) == Done(p) <==> Stored(c, log, pass, V1, blob, p)
  {
    hide Decrypt, Ideal, Blob, Seal;
    KeysFit(c, log);
    var key := c.kdf(pass, LEGACY_SALT, ROUNDS_V1_V2);
    DecryptIff(c, log, blob, key, p);
    if nonce: Nonce :| Sealing(key, nonce, p) in log && blob == nonce + c.seal(key, nonce, p) {
      var salt: Salt := Zeros(SALT_SIZE);
      LegacyBlob(c, pass, salt, nonce, p);
      assert Seal(c, V1, pass, salt, nonce, p) in log && blob == Blob(c, V1, pass, salt, nonce, p);
    }
    if salt: Salt, nonce: Nonce :|
        Seal(c, V1, pass, salt, nonce, p) in log && blob == Blob(c, V1, pass, salt, nonce, p) {
      LegacyBlob(c, pass, salt, nonce, p);
      assert Sealing(key, nonce, p) in log && blob == nonce + c.seal(key, nonce, p);
    }
  }

  // ----- the stored formats, byte for byte -----

  predicate Ascii(s: string, bs: Bytes) {
    |s| == |bs| && forall i | 0 <= i < |s| :: s[i] as int == bs[i]
  }

  /** A row of the current format: magic 3, sixteen bytes of salt, twelve of nonce, 600000 rounds. */
  ghost predicate RowV3(c: Crypto, log: set<Sealing>, pass: string, blob: Bytes, p: Bytes) {
    exists salt: Bytes, nonce: Bytes | |salt| == 16 && |nonce| == 12 ::
      var key := c.kdf(pass, salt, 600000);
      Sealing(key, nonce, p) in log && blob == [0x03] + salt + nonce + c.seal(key, nonce, p)
  }

  /** A row of the format before: magic 2 and 100000 rounds. */
  ghost predicate RowV2(c: Crypto, log: set<Sealing>, pass: string, blob: Bytes, p: Bytes) {
    exists salt: Bytes, nonce: Bytes | |salt| == 16 && |nonce| == 12 ::
      var key := c.kdf(pass, salt, 100000);
      Sealing(key, nonce, p) in log && blob == [0x02] + salt + nonce + c.seal(key, nonce, p)
  }

  /** A legacy row: no header, a fixed salt and 100000 rounds. */
  ghost predicate RowV1(c: Crypto, log: set<Sealing>, pass: string, blob: Bytes, p: Bytes) {
    exists salt: Bytes, nonce: Bytes | Ascii("certctl-config-encryption-v1", salt) && |nonce| == 12 ::
      var key := c.kdf(pass, salt, 100000);
      Sealing(key, nonce, p) in log && blob == nonce + c.seal(key, nonce, p)
  }

  lemma AsciiAppends(s: string, x: Bytes, t: string, y: Bytes)
    requires Ascii(s, x) && Ascii(t, y)
    ensures Ascii(s + t, x + y)
  {
  }

  lemma FirstHalf()
    ensures Ascii("certctl-config", [99, 101, 114, 116, 99, 116, 108, 45, 99, 111, 110, 102, 105, 103])
  {
  }

  lemma SecondHalf()
    ensures Ascii("-encryption-v1", [45, 101, 110, 99, 114, 121, 112, 116, 105, 111, 110, 45, 118, 49])
  {
  }

  lemma LegacyHalves()
    ensures |LEGACY_SALT| == 28
    ensures Ascii("certctl-config", LEGACY_SALT[..14]) && Ascii("-encryption-v1", LEGACY_SALT[14..])
  {
    hide Ascii;
    FirstHalf();
    SecondHalf();
    assert LEGACY_SALT[..14] == [99, 101, 114, 116, 99, 116, 108, 45, 99, 111, 110, 102, 105, 103];
    assert LEGACY_SALT[14..] == [45, 101, 110, 99, 114, 121, 112, 116, 105, 111, 110, 45, 118, 49];
  }

  lemma LegacySaltIs(salt: Bytes)
    ensures Ascii("certctl-config-encryption-v1", salt) <==> salt == LEGACY_SALT
  {
    hide Ascii, LEGACY_SALT;
    var s := "certctl-config-encryption-v1";
    LegacyHalves();
    AsciiAppends("certctl-config", LEGACY_SALT[..14], "-encryption-v1", LEGACY_SALT[14..]);
    assert LEGACY_SALT == LEGACY_SALT[..14] + LEGACY_SALT[14..];
    assert "certctl-config" + "-encryption-v1" == s;
    if Ascii(s, salt) { OneSpelling(s, salt, LEGACY_SALT); }
  }

  lemma OneSpelling(s: string, x: Bytes, y: Bytes)
    requires Ascii(s, x) && Ascii(s, y)
    ensures x == y
  {
  }

  lemma RowV3Iff(c: Crypto, log: set<Sealing>, pass: string, blob: Bytes, p: Bytes)
    ensures RowV3(c, log, pass, blob, p) <==> Stored(c, log, pass, V3, blob, p)
  {
    forall salt: Salt, nonce: Nonce
      ensures Blob(c, V3, pass, salt, nonce, p) == [0x03] + salt + nonce + c.seal(c.kdf(pass, salt, 600000), nonce, p)
    {
    }
    if Stored(c, log, pass, V3, blob, p) {
      var salt: Salt, nonce: Nonce :|
        Seal(c, V3, pass, salt, nonce, p) in log && blob == Blob(c, V3, pass, salt, nonce, p);
      assert Sealing(c.kdf(pass, salt, 600000), nonce, p) in log;
    }
    if RowV3(c, log, pass, blob, p) {
      var salt: Bytes, nonce: Bytes :| |salt| == 16 && |nonce| == 12 &&
        var key := c.kdf(pass, salt, 600000);
        Sealing(key, nonce, p) in log && blob == [0x03] + salt + nonce + c.seal(key, nonce, p);
      assert Seal(c, V3, pass, salt, nonce, p) in log;
    }
  }

  lemma RowV2Iff(c: Crypto, log: set<Sealing>, pass: string, blob: Bytes, p: Bytes)
    ensures RowV2(c, log, pass, blob, p) <==> Stored(c, log, pass, V2, blob, p)
  {
    forall salt: Salt, nonce: Nonce
      ensures Blob(c, V2, pass, salt, nonce, p) == [0x02] + salt + nonce + c.seal(c.kdf(pass, salt, 100000), nonce, p)
    {
    }
    if Stored(c, log, pass, V2, blob, p) {
      var salt: Salt, nonce: Nonce :|
        Seal(c, V2, pass, salt, nonce, p) in log && blob == Blob(c, V2, pass, salt, nonce, p);
      assert Sealing(c.kdf(pass, salt, 100000), nonce, p) in log;
    }
    if RowV2(c, log, pass, blob, p) {
      var salt: Bytes, nonce: Bytes :| |salt| == 16 && |nonce| == 12 &&
        var key := c.kdf(pass, salt, 100000);
        Sealing(key, nonce, p) in log && blob == [0x02] + salt + nonce + c.seal(key, nonce, p);
      assert Seal(c, V2, pass, salt, nonce, p) in log;
    }
  }

  lemma RowV1Iff(c: Crypto, log: set<Sealing>, pass: string, blob: Bytes, p: Bytes)
    ensures RowV1(c, log, pass, blob, p) <==> Stored(c, log, pass, V1, blob, p)
  {
    hide Ascii, LEGACY_SALT;
    LegacySaltIs(LEGACY_SALT);
    if Stored(c, log, pass, V1, blob, p) {
      var salt: Salt, nonce: Nonce :|
        Seal(c, V1, pass, salt, nonce, p) in log && blob == Blob(c, V1, pass, salt, nonce, p);
      LegacyBlob(c, pass, salt, nonce, p);
      assert Sealing(c.kdf(pass, LEGACY_SALT, 100000), nonce, p) in log;
    }
    if RowV1(c, log, pass, blob, p) {
      var salt: Bytes, nonce: Bytes :| Ascii("certctl-config-encryption-v1", salt) && |nonce| == 12 &&
        var key := c.kdf(pass, salt, 100000);
        Sealing(key, nonce, p) in log && blob == nonce + c.seal(key, nonce, p);
      LegacySaltIs(salt);
      LegacyBlob(c, pass, Zeros(SALT_SIZE), nonce, p);
      assert Seal(c, V1, pass, Zeros(SALT_SIZE), nonce, p) in log;
    }
  }

  /** What DecryptIfKeySet returns, in terms of the rows on disk: a plaintext exactly when the blob is
      a row of one of the three formats for it, the two later formats before the legacy one. */
  lemma OpensIff(c: Crypto, log: set<Sealing>, blob: Bytes, pass: string, p: Bytes)
    requires Ideal(c, log)
    ensures DecryptIfKeySet(c, blob, pass) == Done(p) <==>
      && pass != ""
      && (|| RowV3(c, log, pass, blob, p) || RowV2(c, log, pass, blob, p)
          || (RowV1(c, log, pass, blob, p)
              && forall q :: !RowV3(c, log, pass, blob, q) && !RowV2(c, log, pass, blob, q)))
  {
    hide Decrypt, ReadVersioned, Ideal, Stored, RowV3, RowV2, RowV1;
    forall q
      ensures RowV3(c, log, pass, blob, q) <==> ReadVersioned(c, blob, V3_MAGIC, ROUNDS_V3, pass) == Some(q)
      ensures RowV2(c, log, pass, blob, q) <==> ReadVersioned(c, blob, V2_MAGIC, ROUNDS_V1_V2, pass) == Some(q)
    {
      RowV3Iff(c, log, pass, blob, q);
      RowV2Iff(c, log, pass, blob, q);
      VersionedIff(c, log, V3, blob, pass, q);
      VersionedIff(c, log, V2, blob, pass, q);
    }
    RowV1Iff(c, log, pass, blob, p);
    LegacyIff(c, log, blob, pass, p);
    OneMagic(c, blob, pass);
    if blob == [] { NoEmptyRow(c, log, pass, p); }
  }

  lemma NoEmptyRow(c: Crypto, log: set<Sealing>, pass: string, p: Bytes)
    ensures !RowV3(c, log, pass, [], p) && !RowV2(c, log, pass, [], p) && !RowV1(c, log, pass, [], p)
  {
  }

  /** Why nothing is returned, exactly. */
  lemma FailsIff(c: Crypto, log: set<Sealing>, blob: Bytes, pass: string)
    requires Ideal(c, log)
    ensures var r := DecryptIfKeySet(c, blob, pass);
      && (r == Failed(KeyRequired) <==> pass == "")
      && (r == Failed(EmptyBlob) <==> pass != "" && blob == [])
      && (r == Failed(TooShort) <==> pass != "" && 0 < |blob| < 12)
      && (r == Failed(NotAuthentic) <==> pass != "" && |blob| >= 12 && forall p ::
            !RowV3(c, log, pass, blob, p) && !RowV2(c, log, pass, blob, p) && !RowV1(c, log, pass, blob, p))
  {
    hide Ideal, Stored, RowV3, RowV2, RowV1;
    KeysFit(c, log);
    forall p ensures DecryptIfKeySet(c, blob, pass) == Done(p) <==>
      && pass != ""
      && (|| RowV3(c, log, pass, blob, p) || RowV2(c, log, pass, blob, p)
          || (RowV1(c, log, pass, blob, p)
              && forall q :: !RowV3(c, log, pass, blob, q) && !RowV2(c, log, pass, blob, q)))
    {
      OpensIff(c, log, blob, pass, p);
    }
  }

  /** No plaintext but one that was sealed under a key from this very passphrase. */
  lemma OnlyWhatWasSealed(c: Crypto, log: set<Sealing>, blob: Bytes, pass: string)
    requires Ideal(c, log) && DecryptIfKeySet(c, blob, pass).Done?
    ensures pass != "" && exists v :: Stored(c, log, pass, v, blob, DecryptIfKeySet(c, blob, pass).value)
  {
    hide Decrypt, ReadVersioned, Ideal, Stored;
    var p := DecryptIfKeySet(c, blob, pass).value;
    VersionedIff(c, log, V3, blob, pass, p);
    VersionedIff(c, log, V2, blob, pass, p);
    LegacyIff(c, log, blob, pass, p);
  }

  lemma FirstByteTells(c: Crypto, log: set<Sealing>, pass: string, v: Version, blob: Bytes, p: Bytes)
    requires Stored(c, log, pass, v, blob, p)
    ensures |blob| >= NONCE_SIZE && (v != V1 ==> blob[0] == Magic(v) && |blob| >= HEADER_SIZE + NONCE_SIZE)
  {
  }

  /** Blobs of the formats with a magic byte are always recovered. */
  lemma VersionedRoundTrip(c: Crypto, log: set<Sealing>, v: Version, blob: Bytes, pass: string, p: Bytes)
    requires Ideal(c, log) && v != V1 && pass != "" && Stored(c, log, pass, v, blob, p)
    ensures DecryptIfKeySet(c, blob, pass) == Done(p)
  {
    hide Decrypt, Ideal, Stored;
    FirstByteTells(c, log, pass, v, blob, p);
    VersionedIff(c, log, v, blob, pass, p);
  }

  /** A legacy blob is recovered unless the same bytes were also stored, for another plaintext, in a
      later format under this passphrase; that covers nonces that start with a magic byte. */
  lemma LegacyRoundTripIff(c: Crypto, log: set<Sealing>, blob: Bytes, pass: string, p: Bytes)
    requires Ideal(c, log) && pass != "" && Stored(c, log, pass, V1, blob, p)
    ensures DecryptIfKeySet(c, blob, pass) == Done(p) <==>
      forall v, q | v != V1 && Stored(c, log, pass, v, blob, q) :: q == p
  {
    hide Decrypt, ReadVersioned, Ideal, Stored;
    LegacyIff(c, log, blob, pass, p);
    FirstByteTells(c, log, pass, V1, blob, p);
    forall v, q | v != V1 ensures Stored(c, log, pass, v, blob, q) <==>
      ReadVersioned(c, blob, Magic(v), Rounds(v), pass) == Some(q) {
      VersionedIff(c, log, v, blob, pass, q);
    }
    OneMagic(c, blob, pass);
    var v3 := ReadVersioned(c, blob, V3_MAGIC, ROUNDS_V3, pass);
    var v2 := ReadVersioned(c, blob, V2_MAGIC, ROUNDS_V1_V2, pass);
    assert v3.Some? ==> Stored(c, log, pass, V3, blob, v3.value);
    assert v2.Some? ==> Stored(c, log, pass, V2, blob, v2.value);
    assert forall q :: !Stored(c, log, pass, V3, blob, q) || v3 == Some(q);
    assert forall q :: !Stored(c, log, pass, V2, blob, q) || v2 == Some(q);
  }

  lemma OneMagic(c: Crypto, blob: Bytes, pass: string)
    ensures ReadVersioned(c, blob, V3_MAGIC, ROUNDS_V3, pass).None?
        || ReadVersioned(c, blob, V2_MAGIC, ROUNDS_V1_V2, pass).None?
  {
  }

  /** Some sealing is the end of a longer one. */
  ghost predicate Overlap(c: Crypto, log: set<Sealing>) {
    exists t, u :: t in log && u in log &&
      var x, y := SealedBy(c, t), SealedBy(c, u);
      |x| < |y| && y[|y| - |x|..] == x
  }

  lemma OtherwiseUnambiguous(c: Crypto, log: set<Sealing>, pass: string, v: Version, blob: Bytes, p: Bytes, q: Bytes)
    requires v != V1 && Stored(c, log, pass, V1, blob, p) && !Overlap(c, log)
    ensures !Stored(c, log, pass, v, blob, q)
  {
    hide Stored, Overlap;
    if Stored(c, log, pass, v, blob, q) {
      BothOverlap(c, log, pass, v, blob, p, q);
      assert false;
    }
  }

  lemma BothOverlap(c: Crypto, log: set<Sealing>, pass: string, v: Version, blob: Bytes, p: Bytes, q: Bytes)
    requires v != V1 && Stored(c, log, pass, V1, blob, p) && Stored(c, log, pass, v, blob, q)
    ensures Overlap(c, log)
  {
    hide Blob, Seal;
    var s1: Salt, n1: Nonce :| Seal(c, V1, pass, s1, n1, p) in log && blob == Blob(c, V1, pass, s1, n1, p);
    var s2: Salt, n2: Nonce :| Seal(c, v, pass, s2, n2, q) in log && blob == Blob(c, v, pass, s2, n2, q);
    var t, u := Seal(c, v, pass, s2, n2, q), Seal(c, V1, pass, s1, n1, p);
    var before := VersionedBlob(c, v, pass, s2, n2, q);
    LegacyBlob(c, pass, s1, n1, p);
    SharedEnd(n1, SealedBy(c, u), before, SealedBy(c, t), blob);
  }

  function SealedBy(c: Crypto, t: Sealing): Bytes {
    c.seal(t.key, t.nonce, t.plaintext)
  }

  lemma VersionedBlob(c: Crypto, v: Version, pass: string, salt: Salt, nonce: Nonce, p: Bytes) returns (before: Bytes)
    requires v != V1
    ensures |before| > NONCE_SIZE && Blob(c, v, pass, salt, nonce, p)
        == before + SealedBy(c, Seal(c, v, pass, salt, nonce, p))
  {
    before := Header(v, salt) + nonce;
  }

  lemma LegacyBlob(c: Crypto, pass: string, salt: Salt, nonce: Nonce, p: Bytes)
    ensures Blob(c, V1, pass, salt, nonce, p) == nonce + SealedBy(c, Seal(c, V1, pass, salt, nonce, p))
    ensures Seal(c, V1, pass, salt, nonce, p) == Sealing(c.kdf(pass, LEGACY_SALT, ROUNDS_V1_V2), nonce, p)
  {
    var x := c.seal(KeyFor(c, V1, pass, salt), nonce, p);
    assert [] + (nonce + x) == nonce + x;
  }

  lemma SharedEnd(a: Bytes, y: Bytes, b: Bytes, x: Bytes, whole: Bytes)
    requires whole == a + y && whole == b + x && |a| < |b|
    ensures |x| < |y| && y[|y| - |x|..] == x
  {
    var k := |b| - |a|;
    assert forall i | 0 <= i < |x| :: y[k + i] == whole[|b| + i] == x[i];
    assert y[k..] == x;
  }

  /** Every blob of every format is recovered when no sealing is the end of another one. */
  lemma EveryFormatRoundTrips(c: Crypto, log: set<Sealing>, v: Version, blob: Bytes, pass: string, p: Bytes)
    requires Ideal(c, log) && pass != "" && Stored(c, log, pass, v, blob, p) && !Overlap(c, log)
    ensures DecryptIfKeySet(c, blob, pass) == Done(p)
  {
    hide Ideal, Stored, Overlap, DecryptIfKeySet;
    if v == V1 {
      LegacyRoundTripIff(c, log, blob, pass, p);
      forall w, q | w != V1
        ensures !Stored(c, log, pass, w, blob, q)
      {
        OtherwiseUnambiguous(c, log, pass, w, blob, p, q);
      }
    } else {
      VersionedRoundTrip(c, log, v, blob, pass, p);
    }
  }

  /** A legacy blob whose nonce starts with no magic byte needs no such condition. */
  lemma PlainNonceRoundTrips(c: Crypto, log: set<Sealing>, blob: Bytes, pass: string, p: Bytes)
    requires Ideal(c, log) && pass != "" && Stored(c, log, pass, V1, blob, p)
    requires blob == [] || (blob[0] != V2_MAGIC && blob[0] != V3_MAGIC) || |blob| < HEADER_SIZE + NONCE_SIZE
    ensures DecryptIfKeySet(c, blob, pass) == Done(p)
  {
    hide Decrypt, Ideal, Stored;
    LegacyIff(c, log, blob, pass, p);
    FirstByteTells(c, log, pass, V1, blob, p);
  }

  /** A passphrase under which nothing was sealed opens nothing. */
  lemma WrongPassphraseFails(c: Crypto, log: set<Sealing>, blob: Bytes, pass: string)
    requires Ideal(c, log)
    requires forall t, v, salt: Salt | t in log :: t.key != KeyFor(c, v, pass, salt)
    ensures DecryptIfKeySet(c, blob, pass).Failed?
  {
    hide Ideal, DecryptIfKeySet, KeyFor;
    if DecryptIfKeySet(c, blob, pass).Done? {
      OnlyWhatWasSealed(c, log, blob, pass);
      assert false;
    }
  }

  // ----- an ambiguous legacy blob -----

  const TAG_SIZE: nat := 16

  function Zeros(n: nat): Bytes {
    seq(n, _ => 0)
  }

  function Sum(p: Bytes): nat {
    if p == [] then 0 else p[0] + Sum(p[1..])
  }

  /** A sixteen-byte checksum. */
  function Tag(p: Bytes): Bytes {
    seq(TAG_SIZE, _ => Sum(p) % 256)
  }

  function KeyOf(rounds: nat): Bytes {
    [if rounds == ROUNDS_V3 then 3 else 1] + Zeros(KEY_SIZE - 1)
  }

  function OpenToy(log: set<Sealing>, k: Bytes, n: Bytes, x: Bytes): Option<Bytes> {
    if |x| < TAG_SIZE then None
    else
      var p := x[..|x| - TAG_SIZE];
      if Sealing(k, n, p) in log && x == p + Tag(p) then Some(p) else None
  }

  /** A cipher with tags and with keys that depend on the work factor. */
  function Toy(log: set<Sealing>): Crypto {
    Crypto((pass, salt, rounds) => KeyOf(rounds), (k, n, p) => p + Tag(p), (k, n, x) => OpenToy(log, k, n, x))
  }

  lemma ToyIsIdeal(log: set<Sealing>)
    ensures Ideal(Toy(log), log)
  {
    forall t | t in log ensures OpenToy(log, t.key, t.nonce, t.plaintext + Tag(t.plaintext)) == Some(t.plaintext) {
      var x := t.plaintext + Tag(t.plaintext);
      assert x[..|x| - TAG_SIZE] == t.plaintext;
    }
  }

  lemma {:induction false} ZerosAddNothing(n: nat, q: Bytes)
    ensures Sum(Zeros(n) + q) == Sum(q)
  {
    if n == 0 {
      assert Zeros(0) + q == q;
    } else {
      assert (Zeros(n) + q)[1..] == Zeros(n - 1) + q;
      ZerosAddNothing(n - 1, q);
    }
  }

  /** The condition is needed: ideal encryption alone does not keep a legacy blob readable, even
      with tags and with different keys for the formats. */
  lemma {:induction false} AmbiguousLegacyBlob() returns (c: Crypto, log: set<Sealing>, blob: Bytes, p: Bytes)
    ensures Ideal(c, log) && Stored(c, log, "secret", V1, blob, p)
    ensures DecryptIfKeySet(c, blob, "secret").Done? && DecryptIfKeySet(c, blob, "secret") != Done(p)
    ensures forall k, n, x :: |c.seal(k, n, x)| == |x| + TAG_SIZE
    ensures forall pass, salt, salt' :: c.kdf(pass, salt, ROUNDS_V1_V2) != c.kdf(pass, salt', ROUNDS_V3)
  {
    hide Ideal;
    var nonce: Nonce := [V3_MAGIC] + Zeros(11);
    var q: Bytes := [7];
    p := Zeros(17) + q;
    var zeros: Nonce := Zeros(NONCE_SIZE);
    var salt: Salt := Zeros(SALT_SIZE);
    log := {Sealing(KeyOf(ROUNDS_V1_V2), nonce, p), Sealing(KeyOf(ROUNDS_V3), zeros, q)};
    c := Toy(log);
    ToyIsIdeal(log);
    ZerosAddNothing(17, q);
    assert Tag(p) == Tag(q);
    blob := Blob(c, V1, "secret", salt, nonce, p);
    assert Seal(c, V1, "secret", salt, nonce, p) in log;
    assert Seal(c, V3, "secret", salt, zeros, q) in log;
    assert blob == Blob(c, V3, "secret", salt, zeros, q);
    VersionedRoundTrip(c, log, V3, blob, "secret", q);
    assert forall rounds :: |KeyOf(rounds)| == KEY_SIZE;
    assert KeyOf(ROUNDS_V1_V2)[0] != KeyOf(ROUNDS_V3)[0];
  }
}
