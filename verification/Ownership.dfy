/** Which mode, user and group a deployed file gets. */
module Ownership {
  import opened Data
  import opened Os

  /** Empty strings and a zero mode mean "not set". */
  datatype File = File(path: string, bytes: Bytes, mode: nat, owner: string, group: string)
  datatype Defaults = Defaults(mode: nat, owner: string, group: string)

  /** `uid` and `gid` are -1 when the file is not to be chowned. */
  datatype Resolved = Resolved(mode: nat, modeSet: bool, uid: int, gid: int)

  /** `FileMode.Perm`: the nine permission bits, without setuid, setgid and sticky. */
  function Perm(mode: nat): nat {
    mode % 0x200
  }

  function ResolveMode(file: File, defaults: Defaults, existing: Option<Meta>): (nat, bool) {
    if file.mode != 0 then (file.mode, true)
    else if existing.Some? then (Perm(existing.value.mode), true)
    else if defaults.mode != 0 then (defaults.mode, true)
    else (0, false)
  }

  function LookUp(env: Env, owner: string, group: string, mode: (nat, bool)): Option<Resolved> {
    if env.uidOf(owner).None? || env.gidOf(group).None? then None
    else Some(Resolved(mode.0, mode.1, env.uidOf(owner).value, env.gidOf(group).value))
  }

  /** `resolveOwnership`; None when a named user or group does not exist. */
  function Resolve(env: Env, file: File, defaults: Defaults, existing: Option<Meta>): Option<Resolved> {
    var mode := ResolveMode(file, defaults, existing);
    if file.owner != "" && file.group != "" then LookUp(env, file.owner, file.group, mode)
    else if existing.Some? then Some(Resolved(mode.0, mode.1, existing.value.uid, existing.value.gid))
    else if defaults.owner != "" && defaults.group != "" then LookUp(env, defaults.owner, defaults.group, mode)
    else Some(Resolved(mode.0, mode.1, -1, -1))
  }

  predicate WantsChown(o: Resolved) {
    o.uid >= 0 && o.gid >= 0
  }

  function PlacedMode(env: Env, o: Resolved): nat {
    if o.modeSet then o.mode else env.masked(OWNER_RW)
  }

  /** The node holds `data` with the resolved ownership. Only a process that is not root may
      have been refused the chown; the file then still belongs to the process. */
  predicate Placed(env: Env, n: Node, data: Bytes, o: Resolved) {
    && n.bytes == data
    && n.meta.mode == PlacedMode(env, o)
    && var mine := n.meta.uid == env.uid && n.meta.gid == env.gid;
       if WantsChown(o)
       then (n.meta.uid == o.uid && n.meta.gid == o.gid) || (!env.root && mine)
       else mine
  }

  /** The entry leaves the ownership of an existing destination alone. */
  predicate Preserving(file: File) {
    file.mode == 0 && (file.owner == "" || file.group == "")
  }

  /** Ownership preservation, exactly: a root deployment over an existing file that overrides
      nothing keeps user and group, and keeps the mode if and only if it had no special bits. */
  lemma PreservationIff(env: Env, file: File, defaults: Defaults, was: Meta, o: Resolved, n: Node)
    requires env.root && Preserving(file)
    requires Resolve(env, file, defaults, Some(was)) == Some(o) && Placed(env, n, n.bytes, o)
    ensures n.meta.uid == was.uid && n.meta.gid == was.gid && n.meta.mode == Perm(was.mode)
    ensures n.meta == was <==> was.mode < 0x200
  {
  }

  // ----- precedence -----

  function FirstGiven<T>(options: seq<Option<T>>): Option<T> {
    if options == [] then None else if options[0].Some? then options[0] else FirstGiven(options[1..])
  }

  function NonZero(mode: nat): Option<nat> {
    if mode == 0 then None else Some(mode)
  }

  /** A pair of names counts only when both are given. */
  function Named(owner: string, group: string): Option<(string, string)> {
    if owner == "" || group == "" then None else Some((owner, group))
  }

  datatype Source = Names(owner: string, group: string) | Existing(uid: nat, gid: nat)

  function NamesOf(names: Option<(string, string)>): Option<Source> {
    if names.None? then None else Some(Names(names.value.0, names.value.1))
  }

  /** Precedence: the entry, then the existing file, then the defaults, for the mode and, apart from
      it, for the owner; only names that are used need to resolve. */
  lemma ResolveTakesFirst(env: Env, file: File, defaults: Defaults, existing: Option<Meta>)
    ensures
      var mode := FirstGiven([
        NonZero(file.mode),
        if existing.Some? then Some(Perm(existing.value.mode)) else None,
        NonZero(defaults.mode)]);
      var owner := FirstGiven([
        NamesOf(Named(file.owner, file.group)),
        if existing.Some? then Some(Existing(existing.value.uid, existing.value.gid)) else None,
        NamesOf(Named(defaults.owner, defaults.group))]);
      var r := Resolve(env, file, defaults, existing);
      && (r.None? <==>
            owner.Some? && owner.value.Names?
            && (env.uidOf(owner.value.owner).None? || env.gidOf(owner.value.group).None?))
      && (r.Some? ==>
          && r.value.modeSet == mode.Some? && (mode.Some? ==> r.value.mode == mode.value)
          && (owner.None? ==> r.value.uid == -1 && r.value.gid == -1)
          && (owner.Some? && owner.value.Existing? ==> r.value.uid == owner.value.uid && r.value.gid == owner.value.gid)
          && (owner.Some? && owner.value.Names? ==>
              Some(r.value.uid) == env.uidOf(owner.value.owner) && Some(r.value.gid) == env.gidOf(owner.value.group)))
  {
    ThirdOfThree(NonZero(file.mode),
                 if existing.Some? then Some(Perm(existing.value.mode)) else None, NonZero(defaults.mode));
    ThirdOfThree(NamesOf(Named(file.owner, file.group)),
                 if existing.Some? then Some(Existing(existing.value.uid, existing.value.gid)) else None,
                 NamesOf(Named(defaults.owner, defaults.group)));
  }

  lemma ThirdOfThree<T>(a: Option<T>, b: Option<T>, c: Option<T>)
    ensures FirstGiven([a, b, c]) == if a.Some? then a else if b.Some? then b else c
  {
    var three, two, one := [a, b, c], [b, c], [c];
    assert three[1..] == two && two[1..] == one && one[1..] == [];
    assert FirstGiven(one) == c;
    assert FirstGiven(two) == if b.Some? then b else c;
  }
}
