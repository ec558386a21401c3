/** The API key store: a list of hashed keys searched from the front, which has to behave like a map
    from hashes to identities. */
module KeyStore {
  import opened Data
  import opened Fields
  import opened NamedKeys

  datatype Identity = Identity(name: string, admin: bool)
  datatype Entry = Entry(hash: string, id: Identity)

  // ----- what the list means -----

  function First(es: seq<Entry>, hash: string): (i: nat)
    ensures i <= |es| && (i < |es| ==> es[i].hash == hash)
    ensures forall j | 0 <= j < i :: es[j].hash != hash
  {
    if es == [] || es[0].hash == hash then 0
    else
      var i := First(es[1..], hash) + 1;
      assert forall j | 1 <= j < i :: es[j] == es[1..][j - 1];
      i
  }

  function Lookup(es: seq<Entry>, hash: string): Option<Identity> {
    var i := First(es, hash);
    if i < |es| then Some(es[i].id) else None
  }

  ghost function Hashes(es: seq<Entry>): set<string> {
    set e | e in es :: e.hash
  }

  /** The map the list stands for. */
  ghost function Meaning(es: seq<Entry>): map<string, Identity> {
    map h | h in Hashes(es) && Lookup(es, h).Some? :: Lookup(es, h).value
  }

  ghost function Find(m: map<string, Identity>, hash: string): Option<Identity> {
    if hash in m then Some(m[hash]) else None
  }

  lemma FindIsLookup(es: seq<Entry>, hash: string)
    ensures Find(Meaning(es), hash) == Lookup(es, hash)
  {
    hide First;
    var i := First(es, hash);
    if i < |es| { assert es[i] in es; }
  }

  /** A list that is found to answer like a map stands for that map. */
  lemma MeaningIs(es: seq<Entry>, m: map<string, Identity>)
    requires forall h :: Lookup(es, h) == Find(m, h)
    ensures Meaning(es) == m
  {
    hide Lookup, Meaning;
    forall h ensures Find(Meaning(es), h) == Find(m, h) { FindIsLookup(es, h); assert Lookup(es, h) == Find(m, h); }
    assert forall h :: h in m <==> Find(m, h).Some?;
    assert forall h :: h in Meaning(es) <==> Find(Meaning(es), h).Some?;
    assert forall h | h in m :: Find(m, h) == Some(m[h]) && Find(Meaning(es), h) == Some(Meaning(es)[h]);
  }

  /** Replace the first entry in place, or append. */
  function Put(es: seq<Entry>, e: Entry): seq<Entry> {
    var i := First(es, e.hash);
    if i < |es| then es[i := e] else es + [e]
  }

  /** The first match is the only place the two agree on, so position decides. */
  lemma {:induction false} FirstAt(es: seq<Entry>, hash: string, i: nat)
    requires i <= |es| && (i < |es| ==> es[i].hash == hash) && forall j | 0 <= j < i :: es[j].hash != hash
    ensures First(es, hash) == i
  {
    hide First;
  }

  lemma PutLookup(es: seq<Entry>, e: Entry, hash: string)
    ensures Lookup(Put(es, e), hash) == if hash == e.hash then Some(e.id) else Lookup(es, hash)
  {
    hide First;
    var f, i := First(es, e.hash), First(es, hash);
    FirstAt(Put(es, e), hash, if hash != e.hash && i == |es| then |Put(es, e)| else i);
  }

  lemma PutMeaning(es: seq<Entry>, e: Entry)
    ensures Meaning(Put(es, e)) == Meaning(es)[e.hash := e.id]
  {
    hide Lookup, Put, Meaning;
    forall h ensures Lookup(Put(es, e), h) == Find(Meaning(es)[e.hash := e.id], h) {
      PutLookup(es, e, h);
      FindIsLookup(es, h);
    }
    MeaningIs(Put(es, e), Meaning(es)[e.hash := e.id]);
  }

  // ----- whole histories -----

  function Puts(es: seq<Entry>, ops: seq<Entry>): seq<Entry> {
    if ops == [] then es else Put(Puts(es, ops[..|ops| - 1]), ops[|ops| - 1])
  }

  /** What a list of additions says, a later one overriding an earlier one. */
  function Overlay(ops: seq<Entry>): map<string, Identity> {
    if ops == [] then map[] else Overlay(ops[..|ops| - 1])[ops[|ops| - 1].hash := ops[|ops| - 1].id]
  }

  /** Any history of additions: the last addition of a hash wins, else the first seed. */
  lemma {:induction false} HistoryMeaning(seed: seq<Entry>, ops: seq<Entry>)
    ensures Meaning(Puts(seed, ops)) == Meaning(seed) + Overlay(ops)
  {
    hide Meaning, Put;
    if ops == [] {
      assert Meaning(seed) + map[] == Meaning(seed);
    } else {
      var n := |ops| - 1;
      HistoryMeaning(seed, ops[..n]);
      PutMeaning(Puts(seed, ops[..n]), ops[n]);
    }
  }

  /** Running the loader again changes nothing. */
  lemma {:induction false} ReloadIsSafe(seed: seq<Entry>, rows: seq<Entry>)
    ensures Meaning(Puts(Puts(seed, rows), rows)) == Meaning(Puts(seed, rows))
  {
    hide Meaning, Puts, Overlay;
    HistoryMeaning(seed, rows);
    HistoryMeaning(Puts(seed, rows), rows);
    var m, o := Meaning(seed), Overlay(rows);
    assert m + o + o == m + o;
  }

  predicate DistinctHashes(es: seq<Entry>) {
    forall i, j | 0 <= i < j < |es| :: es[i].hash != es[j].hash
  }

  /** Additions introduce no second entry for a hash. */
  lemma {:induction false} StaysDistinct(seed: seq<Entry>, ops: seq<Entry>)
    requires DistinctHashes(seed)
    ensures DistinctHashes(Puts(seed, ops))
  {
    if ops != [] { StaysDistinct(seed, ops[..|ops| - 1]); }
  }

  // ----- the store -----

  function Hashed(hashing: string -> string, keys: seq<NamedKey>): (r: seq<Entry>)
    ensures |r| == |keys|
  {
    seq(|keys|, i requires 0 <= i < |keys| => Entry(hashing(keys[i].key), IdOf(keys[i])))
  }

  function IdOf(k: NamedKey): Identity {
    Identity(k.name, k.admin)
  }

  class MutableKeyStore {
    const hashing: string -> string
    var entries: seq<Entry>

    ghost function View(): map<string, Identity>
      reads this
    {
      Meaning(entries)
    }

    constructor (hashing: string -> string, seed: seq<NamedKey>)
      ensures this.hashing == hashing && entries == Hashed(hashing, seed)
    {
      this.hashing := hashing;
      entries := [];
      new;
      for i := 0 to |seed|
        invariant entries == Hashed(hashing, seed)[..i] && this.hashing == hashing
      {
        var nk := seed[i];
        entries := entries + [Entry(hashing(nk.key), Identity(nk.name, nk.admin))];
      }
    }

    method LookupByHash(hash: string) returns (r: Option<Identity>)
      ensures r == Find(View(), hash)
    {
      hide First;
      FindIsLookup(entries, hash);
      for i := 0 to |entries|
        invariant forall j | 0 <= j < i :: entries[j].hash != hash
      {
        if entries[i].hash == hash {
          FirstAt(entries, hash, i);
          return Some(entries[i].id);
        }
      }
      FirstAt(entries, hash, |entries|);
      return None;
    }

    method AddHashed(name: string, hash: string, admin: bool)
      modifies this
      ensures entries == Put(old(entries), Entry(hash, Identity(name, admin)))
      ensures View() == old(View())[hash := Identity(name, admin)]
    {
      hide First, Meaning;
      ghost var e := Entry(hash, Identity(name, admin));
      PutMeaning(entries, e);
      for i := 0 to |entries|
        invariant forall j | 0 <= j < i :: entries[j].hash != hash
        invariant entries == old(entries)
      {
        if entries[i].hash == hash {
          FirstAt(entries, hash, i);
          entries := entries[i := Entry(hash, Identity(name, admin))];
          return;
        }
      }
      FirstAt(entries, hash, |entries|);
      entries := entries + [Entry(hash, Identity(name, admin))];
    }

    method Add(key: NamedKey)
      modifies this
      ensures View() == old(View())[hashing(key.key) := IdOf(key)]
    {
      AddHashed(key.name, hashing(key.key), key.admin);
    }
  }

  // ----- parsed keys in the store -----

  ghost predicate CollisionFree(hashing: string -> string) {
    forall a, b :: hashing(a) == hashing(b) ==> a == b
  }

  /** A token resolves to the first configured key that equals it, and to nothing when none does. */
  lemma TokenIff(hashing: string -> string, keys: seq<NamedKey>, token: string, id: Identity)
    requires CollisionFree(hashing)
    ensures Lookup(Hashed(hashing, keys), hashing(token)) == Some(id) <==>
      exists i :: 0 <= i < |keys| && keys[i].key == token && IdOf(keys[i]) == id && forall j | 0 <= j < i ::
        keys[j].key != token
  {
    hide First;
    var es := Hashed(hashing, keys);
    var f := First(es, hashing(token));
    if f < |keys| {
      assert es[f].hash == hashing(keys[f].key);
      assert forall j | 0 <= j < f :: es[j].hash == hashing(keys[j].key);
    }
    if i :| 0 <= i < |keys| && keys[i].key == token && IdOf(keys[i]) == id && forall j | 0 <= j < i ::
      keys[j].key != token {
      assert forall j | 0 <= j < i :: es[j].hash == hashing(keys[j].key);
      FirstAt(es, hashing(token), i);
    }
  }

  predicate Resolves(hashing: string -> string, keys: seq<NamedKey>, i: nat)
    requires i < |keys|
  {
    Lookup(Hashed(hashing, keys), hashing(keys[i].key)) == Some(IdOf(keys[i]))
  }

  /** In a list the parser accepts, a key authenticates its own name exactly when no earlier entry
      has the same key. */
  lemma ResolvesIff(hashing: string -> string, input: string, i: nat)
    requires CollisionFree(hashing) && Parse(input).Ok? && i < |Parse(input).value|
    ensures var keys := Parse(input).value;
      Resolves(hashing, keys, i) <==> forall j | 0 <= j < i :: keys[j].key != keys[i].key
  {
    hide Parse, Lookup, CollisionFree;
    var keys := Parse(input).value;
    ParseIff(input, keys);
    TokenIff(hashing, keys, keys[i].key, IdOf(keys[i]));
    if Resolves(hashing, keys, i) {
      var f :| 0 <= f < |keys| && keys[f].key == keys[i].key && IdOf(keys[f]) == IdOf(keys[i])
        && forall j | 0 <= j < f :: keys[j].key != keys[i].key;
      assert f == i;
    }
  }

  /** Every accepted key works if and only if no key string is configured twice. */
  lemma AllResolveIff(hashing: string -> string, input: string)
    requires CollisionFree(hashing) && Parse(input).Ok?
    ensures var keys := Parse(input).value;
      (forall i | 0 <= i < |keys| :: Resolves(hashing, keys, i)) <==>
      (forall i, j | 0 <= j < i < |keys| :: keys[j].key != keys[i].key)
  {
    hide Parse, Resolves, CollisionFree;
    var keys := Parse(input).value;
    forall i | 0 <= i < |keys| ensures Resolves(hashing, keys, i) <==>
      forall j | 0 <= j < i :: keys[j].key != keys[i].key {
      ResolvesIff(hashing, input, i);
    }
  }

  /** Two names may share a key: the second entry is accepted and never used, so an administrator
      listed second authenticates as the other, unprivileged name. */
  lemma SharedKeyShadows(hashing: string -> string)
    requires CollisionFree(hashing)
    ensures Parse("alice:K,bob:K:admin") == Ok([NamedKey("alice", "K", false), NamedKey("bob", "K", true)])
    ensures var keys := [NamedKey("alice", "K", false), NamedKey("bob", "K", true)];
      Lookup(Hashed(hashing, keys), hashing("K")) == Some(Identity("alice", false)) && !Resolves(hashing, keys, 1)
  {
    hide Parse, Lookup, CollisionFree, Split, Trim, Print, PrintKey;
    var alice, bob := NamedKey("alice", "K", false), NamedKey("bob", "K", true);
    var keys := [alice, bob];
    assert AllPrintable(keys);
    PrintParse(keys);
    PrintTwo(alice, bob);
    PrintKeyIs(alice);
    PrintKeyIs(bob);
    assert Print(keys) == "alice:K,bob:K:admin";
    TokenIff(hashing, keys, "K", IdOf(alice));
    assert keys[0].key == "K";
  }
}
