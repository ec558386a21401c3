/** Destination paths, the sibling names derived from them, and when two destinations
    can never be confused through those names. */
module Paths {
  import opened Text

  type Path = string

  const BACKUP_SUFFIX := ".certctl-bak."
  const TEMP_SUFFIX := ".certctl-tmp."

  /** A non-negative `time.Now().UnixNano()`. */
  type Nanos = t: int | 0 <= t <= 0x7FFF_FFFF_FFFF_FFFF

  function Stamp(t: Nanos): string {
    Decimal(t, 19)
  }

  function BackupPath(d: Path, t: Nanos): Path {
    d + BACKUP_SUFFIX + Stamp(t)
  }

  function TempPath(d: Path, t: Nanos): Path {
    d + TEMP_SUFFIX + Stamp(t)
  }

  /** `x` lies in the directory of `d` and its name starts with the name of `d` followed by `suffix`. */
  predicate Sibling(d: Path, suffix: string, x: Path) {
    d + suffix <= x && '/' !in x[|d|..]
  }

  predicate IsBackupOf(d: Path, x: Path) {
    Sibling(d, BACKUP_SUFFIX, x)
  }

  predicate IsTempOf(d: Path, x: Path) {
    Sibling(d, TEMP_SUFFIX, x)
  }

  /** `x` is a backup name of `d` as a deployment makes it, with a stamp. */
  ghost predicate MadeBackup(d: Path, x: Path)
    ensures MadeBackup(d, x) ==> IsBackupOf(d, x)
  {
    StampsMakeSiblings(d);
    exists t: Nanos :: x == BackupPath(d, t)
  }

  ghost predicate MadeTemp(d: Path, x: Path)
    ensures MadeTemp(d, x) ==> IsTempOf(d, x)
  {
    StampsMakeSiblings(d);
    exists t: Nanos :: x == TempPath(d, t)
  }

  lemma StampsMakeSiblings(d: Path)
    ensures forall t: Nanos :: IsBackupOf(d, BackupPath(d, t)) && IsTempOf(d, TempPath(d, t))
  {
    hide Sibling, BackupPath, TempPath;
    forall t: Nanos
      ensures IsBackupOf(d, BackupPath(d, t)) && IsTempOf(d, TempPath(d, t))
    {
      DerivedPathsAreMine(d, t);
    }
  }

  /** Every path a deployment of `d` reads or writes. */
  predicate Mine(d: Path, x: Path) {
    x == d || IsBackupOf(d, x) || IsTempOf(d, x)
  }

  /** The name of `q` itself spells out `d` and a suffix, counting the dot that every derived
      name of `q` has next: both suffixes begin and end with that dot. */
  predicate Shadows(d: Path, suffix: string, q: Path) {
    d + suffix <= q + "." && '/' !in (q + ".")[|d|..]
  }

  predicate Apart(p: Path, q: Path) {
    && !Shadows(p, BACKUP_SUFFIX, q) && !Shadows(p, TEMP_SUFFIX, q)
    && !Shadows(q, BACKUP_SUFFIX, p) && !Shadows(q, TEMP_SUFFIX, p)
  }

  lemma StampHasNoSlash(t: Nanos)
    ensures '/' !in Stamp(t)
  {
  }

  lemma MakesSibling(d: Path, suffix: string, end: string)
    requires '/' !in suffix && '/' !in end
    ensures Sibling(d, suffix, d + suffix + end)
  {
    assert (d + suffix + end)[|d|..] == suffix + end;
  }

  lemma DerivedPathsAreMine(d: Path, t: Nanos)
    ensures IsBackupOf(d, BackupPath(d, t))
    ensures IsTempOf(d, TempPath(d, t))
  {
    hide Stamp;
    StampHasNoSlash(t);
    MakesSibling(d, BACKUP_SUFFIX, Stamp(t));
    MakesSibling(d, TEMP_SUFFIX, Stamp(t));
  }

  /** The two derived names, written out: nineteen digits after the suffix. */
  lemma DerivedNames(d: Path, t: Nanos)
    ensures exists digits: string ::
      && |digits| == 19 && (forall ch | ch in digits :: '0' <= ch <= '9')
      && BackupPath(d, t) == d + ".certctl-bak." + digits && TempPath(d, t) == d + ".certctl-tmp." + digits
  {
    var digits := Stamp(t);
    assert BackupPath(d, t) == d + ".certctl-bak." + digits;
  }

  lemma DerivedPathsAreMade(d: Path, t: Nanos)
    ensures MadeBackup(d, BackupPath(d, t)) && MadeTemp(d, TempPath(d, t))
  {
  }

  /** The parts of a stamped name. */
  lemma Parts(d: Path, suffix: string, t: Nanos)
    requires |suffix| == 13
    ensures var x := d + suffix + Stamp(t); |x| >= 32 && x[..|x| - 32] == d && x[|x| - 32..|x| - 19] == suffix
  {
  }

  /** A stamped name tells what it was made for, and as what. */
  lemma MadeForOne(p: Path, q: Path, x: Path)
    ensures MadeBackup(p, x) && MadeBackup(q, x) ==> p == q
    ensures MadeTemp(p, x) && MadeTemp(q, x) ==> p == q
    ensures !(MadeBackup(p, x) && MadeTemp(q, x))
  {
    hide Stamp, Sibling;
    if t: Nanos :| x == BackupPath(p, t) { Parts(p, BACKUP_SUFFIX, t); }
    if t: Nanos :| x == BackupPath(q, t) { Parts(q, BACKUP_SUFFIX, t); }
    if t: Nanos :| x == TempPath(p, t) { Parts(p, TEMP_SUFFIX, t); }
    if t: Nanos :| x == TempPath(q, t) { Parts(q, TEMP_SUFFIX, t); }
    assert BACKUP_SUFFIX[9] != TEMP_SUFFIX[9];
  }

  /** A destination, its backups and its temp files have different names. */
  lemma KindsAreDisjoint(d: Path, x: Path)
    ensures !(IsBackupOf(d, x) && IsTempOf(d, x))
    ensures !IsBackupOf(d, d) && !IsTempOf(d, d)
  {
    assert (d + BACKUP_SUFFIX)[|d| + 9] == 'b' && (d + TEMP_SUFFIX)[|d| + 9] == 't';
  }

  ghost predicate IsSuffix(m: string) {
    m == BACKUP_SUFFIX || m == TEMP_SUFFIX
  }

  lemma TwoSiblings(p: Path, m: string, q: Path, k: string, x: Path)
    requires IsSuffix(m) && IsSuffix(k)
    requires |p| < |q|
    requires Sibling(p, m, x) && Sibling(q, k, x)
    ensures Shadows(p, m, q)
  {
    assert x[|q|] == (q + k)[|q|] == '.';
    assert forall i | |p| < i < |p| + 12 :: x[i] == (p + m)[i] == m[i - |p|] != '.';
    if |q| >= |p| + 12 {
      assert q + "." <= x;
      assert forall i | 0 <= i < |p + m| :: (p + m)[i] == x[i] == (q + ".")[i];
      assert forall i | |p| <= i < |q| + 1 :: (q + ".")[i] == x[i] == x[|p|..][i - |p|];
    }
  }

  lemma SiblingIsDestination(p: Path, m: string, q: Path)
    requires IsSuffix(m) && Sibling(p, m, q)
    ensures Shadows(p, m, q)
  {
    assert forall i | |p| <= i < |q| :: (q + ".")[i] == q[|p|..][i - |p|];
  }

  lemma SamePrefixSameLength(p: string, q: string, x: string)
    requires p <= x && q <= x && |p| == |q|
    ensures p == q
  {
    assert x[..|p|] == p && x[..|q|] == q;
  }

  lemma ApartIsEnough(p: Path, q: Path, x: Path)
    requires p != q && Apart(p, q)
    ensures !(Mine(p, x) && Mine(q, x))
  {
    if Mine(p, x) && Mine(q, x) {
      if x == p {
        var m :| IsSuffix(m) && Sibling(q, m, p);
        SiblingIsDestination(q, m, p);
      } else if x == q {
        var m :| IsSuffix(m) && Sibling(p, m, q);
        SiblingIsDestination(p, m, q);
      } else {
        var m :| IsSuffix(m) && Sibling(p, m, x);
        var k :| IsSuffix(k) && Sibling(q, k, x);
        if |p| < |q| {
          TwoSiblings(p, m, q, k, x);
        } else if |q| < |p| {
          TwoSiblings(q, k, p, m, x);
        } else {
          SamePrefixSameLength(p, q, x);
        }
      }
    }
  }

  lemma ShadowMeansShared(p: Path, m: string, q: Path)
    requires IsSuffix(m) && Shadows(p, m, q)
    ensures Sibling(p, m, q + BACKUP_SUFFIX) && IsBackupOf(q, q + BACKUP_SUFFIX)
  {
    var x := q + BACKUP_SUFFIX;
    assert q + "." <= x;
    forall i | |p| <= i < |x| ensures x[i] != '/' {
      if i < |q| + 1 { assert x[i] == (q + ".")[|p|..][i - |p|]; }
    }
    assert x[|q|..] == BACKUP_SUFFIX;
  }

  /** Separation, exactly: two destinations share no destination, backup or temp name
      if and only if neither name shadows the other. */
  lemma SeparationIff(p: Path, q: Path)
    requires p != q
    ensures Apart(p, q) <==> forall x :: !(Mine(p, x) && Mine(q, x))
  {
    if Apart(p, q) {
      forall x ensures !(Mine(p, x) && Mine(q, x)) { ApartIsEnough(p, q, x); }
    } else {
      if m :| IsSuffix(m) && Shadows(p, m, q) {
        ShadowMeansShared(p, m, q);
        assert Mine(p, q + BACKUP_SUFFIX) && Mine(q, q + BACKUP_SUFFIX);
      } else {
        var m :| IsSuffix(m) && Shadows(q, m, p);
        ShadowMeansShared(q, m, p);
        assert Mine(p, p + BACKUP_SUFFIX) && Mine(q, p + BACKUP_SUFFIX);
      }
    }
  }

  // ----- plain names -----

  /** Where the last path component begins. */
  function DirLen(p: Path): (n: nat)
    ensures n <= |p|
  {
    if p == "" then 0 else if p[|p| - 1] == '/' then |p| else DirLen(p[..|p| - 1])
  }

  function Base(p: Path): string {
    p[DirLen(p)..]
  }

  lemma {:induction false} NameHasNoSlash(p: Path)
    ensures '/' !in p[DirLen(p)..]
  {
    if p != "" && p[|p| - 1] != '/' {
      NameHasNoSlash(p[..|p| - 1]);
      assert p[DirLen(p)..] == p[..|p| - 1][DirLen(p)..] + [p[|p| - 1]];
    }
  }

  lemma {:induction false} DirLenExtends(d: Path, x: Path)
    requires d <= x && '/' !in x[|d|..]
    ensures DirLen(x) == DirLen(d)
    decreases |x|
  {
    if |x| > |d| {
      var y := x[..|x| - 1];
      assert x[|d|..] == y[|d|..] + [x[|x| - 1]];
      assert x[|x| - 1] in x[|d|..];
      DirLenExtends(d, y);
    } else {
      assert x == d;
    }
  }

  predicate OccursAt(s: string, w: string, i: nat) {
    i + |w| <= |s| && s[i..i + |w|] == w
  }

  predicate Contains(s: string, w: string) {
    exists i | 0 <= i <= |s| :: OccursAt(s, w, i)
  }

  /** The simple sufficient test: no name mentions either suffix without its last dot. */
  lemma PlainNamesAreApart(p: Path, q: Path)
    requires !Contains(Base(p), ".certctl-bak") && !Contains(Base(q), ".certctl-bak")
    requires !Contains(Base(p), ".certctl-tmp") && !Contains(Base(q), ".certctl-tmp")
    ensures Apart(p, q)
  {
    assert BACKUP_SUFFIX[..12] == ".certctl-bak" && TEMP_SUFFIX[..12] == ".certctl-tmp";
    PlainIsNotShadowed(p, BACKUP_SUFFIX, q);
    PlainIsNotShadowed(p, TEMP_SUFFIX, q);
    PlainIsNotShadowed(q, BACKUP_SUFFIX, p);
    PlainIsNotShadowed(q, TEMP_SUFFIX, p);
  }

  lemma PlainIsNotShadowed(d: Path, m: string, q: Path)
    requires IsSuffix(m) && !Contains(Base(q), m[..12])
    ensures !Shadows(d, m, q)
  {
    hide DirLen, Contains;
    if Shadows(d, m, q) {
      assert |d + m| == |d| + 13 && |d| + 12 <= |q|;
      forall i | 0 <= i < |d| + 12 ensures q[i] == (d + m)[i] { assert (d + m)[i] == (q + ".")[i]; }
      assert d == q[..|d|];
      forall i | |d| <= i < |q| ensures q[i] != '/' { assert q[i] == (q + ".")[|d|..][i - |d|]; }
      DirLenExtends(d, q);
      SpelledOut(Base(q), m[..12], |d| - DirLen(q));
    }
  }

  lemma SpelledOut(s: string, w: string, i: nat)
    requires i + |w| <= |s| && forall k | 0 <= k < |w| :: s[i + k] == w[k]
    ensures Contains(s, w)
  {
    assert s[i..i + |w|] == w;
    assert OccursAt(s, w, i);
  }

  /** Separation of pruning: when no destination name contains `.certctl-bak`, what the backup prefix
      of one path matches is no other destination, no backup and no temp file of it. */
  lemma PruningSparesOthers(p: Path, q: Path, x: Path, t: Nanos)
    requires p != q && !Contains(Base(p), ".certctl-bak") && !Contains(Base(q), ".certctl-bak")
    requires IsBackupOf(p, x)
    ensures x != q && !IsBackupOf(q, x) && x != TempPath(q, t)
  {
    hide Contains, Base, Sibling, Stamp, Shadows;
    assert BACKUP_SUFFIX[..12] == ".certctl-bak";
    PlainIsNotShadowed(p, BACKUP_SUFFIX, q);
    PlainIsNotShadowed(q, BACKUP_SUFFIX, p);
    if x == q { SiblingIsDestination(p, BACKUP_SUFFIX, q); assert false; }
    if IsBackupOf(q, x) {
      if |p| < |q| { TwoSiblings(p, BACKUP_SUFFIX, q, BACKUP_SUFFIX, x); }
      else if |q| < |p| { TwoSiblings(q, BACKUP_SUFFIX, p, BACKUP_SUFFIX, x); }
      else { SiblingsOfOne(p, BACKUP_SUFFIX, q, BACKUP_SUFFIX, x); }
      assert false;
    }
    if x == TempPath(q, t) {
      DerivedPathsAreMine(q, t);
      if |p| < |q| { TwoSiblings(p, BACKUP_SUFFIX, q, TEMP_SUFFIX, x); }
      else if |q| < |p| { NoBackupInStamp(p, q, t); }
      else { SiblingsOfOne(p, BACKUP_SUFFIX, q, TEMP_SUFFIX, x); }
      assert false;
    }
  }

  lemma SiblingsOfOne(p: Path, m: string, q: Path, k: string, x: Path)
    requires Sibling(p, m, x) && Sibling(q, k, x) && |p| == |q|
    ensures p == q
  {
    SamePrefixSameLength(p, q, x);
  }

  lemma StampIsDigits(t: Nanos)
    ensures '.' !in Stamp(t) && 'c' !in Stamp(t)
  {
  }

  /** A temp name goes on with digits after its suffix. */
  lemma NoSecondSuffix(q: Path, t: Nanos, i: nat)
    requires |q| < i && i + 1 < |TempPath(q, t)|
    ensures !(TempPath(q, t)[i] == '.' && TempPath(q, t)[i + 1] == 'c')
  {
    hide Stamp;
    StampIsDigits(t);
    var x, n := TempPath(q, t), |q| + 13;
    if i >= n { assert x[i] == Stamp(t)[i - n]; assert x[i] in Stamp(t); }
    else if i == n - 1 { assert x[i + 1] == Stamp(t)[0]; assert x[i + 1] in Stamp(t); }
    else { assert x[i] == TEMP_SUFFIX[i - |q|]; }
  }

  lemma SuffixFollows(p: Path, x: Path)
    requires IsBackupOf(p, x)
    ensures |p| + 1 < |x| && x[|p|] == '.' && x[|p| + 1] == 'c'
  {
    assert (p + BACKUP_SUFFIX)[|p|] == x[|p|] && (p + BACKUP_SUFFIX)[|p| + 1] == x[|p| + 1];
  }

  lemma NoBackupInStamp(p: Path, q: Path, t: Nanos)
    requires |q| < |p|
    ensures !IsBackupOf(p, TempPath(q, t))
  {
    hide Sibling, TempPath;
    if IsBackupOf(p, TempPath(q, t)) {
      SuffixFollows(p, TempPath(q, t));
      NoSecondSuffix(q, t, |p|);
      assert false;
    }
  }

  /** Leaving out only the whole suffix is too weak: for every destination `p`, the backups of
      `p.certctl-bak` match the backup prefix of `p`, whether or not they contain that suffix. */
  lemma ClosingDotOverlaps(p: Path, t: Nanos)
    ensures var q := p + ".certctl-bak";
            !Apart(p, q) && IsBackupOf(p, BackupPath(q, t)) && IsBackupOf(q, BackupPath(q, t))
  {
    var q := p + ".certctl-bak";
    ClosingDotShadows(p);
    ShadowMeansShared(p, BACKUP_SUFFIX, q);
    SiblingExtends(p, BACKUP_SUFFIX, q + BACKUP_SUFFIX, Stamp(t));
    DerivedPathsAreMine(q, t);
  }

  lemma ClosingDotShadows(p: Path)
    ensures Shadows(p, BACKUP_SUFFIX, p + ".certctl-bak")
  {
    var w := ".certctl-bak";
    assert w + "." == BACKUP_SUFFIX;
    assert (p + w) + "." == p + (w + ".");
    assert (p + BACKUP_SUFFIX)[|p|..] == BACKUP_SUFFIX;
  }

  lemma SiblingExtends(d: Path, m: string, x: Path, r: string)
    requires Sibling(d, m, x) && '/' !in r
    ensures Sibling(d, m, x + r)
  {
    assert (x + r)[|d|..] == x[|d|..] + r;
  }

  /** A pair of names of which neither contains the suffix, and which share a backup name. */
  lemma ClosingDotExample()
    ensures var p, q := "a", "a.certctl-bak";
      && !Contains(p, BACKUP_SUFFIX) && !Contains(q, BACKUP_SUFFIX)
      && IsBackupOf(p, BackupPath(q, 0)) && IsBackupOf(q, BackupPath(q, 0))
  {
    hide Sibling, Stamp;
    var p, q := "a", "a.certctl-bak";
    assert p + ".certctl-bak" == q;
    ClosingDotOverlaps(p, 0);
    forall i | 0 <= i <= |q| ensures !OccursAt(q, BACKUP_SUFFIX, i) {
      if i == 0 { assert q[0..13][0] == 'a'; }
    }
  }

  /** Backups of one destination sort by name as they were taken in time. */
  lemma NamesFollowTime(d: Path, t: Nanos, u: Nanos)
    ensures Less(BackupPath(d, t), BackupPath(d, u)) <==> t < u
    ensures BackupPath(d, t) == BackupPath(d, u) <==> t == u
  {
    assert Pow10(4) == 10_000;
    assert Pow10(9) == 100_000 * Pow10(4);
    assert Pow10(14) == 100_000 * Pow10(9);
    assert Pow10(19) == 100_000 * Pow10(14);
    DecimalOrder(t, u, 19);
    var p := d + BACKUP_SUFFIX;
    LessAfterPrefix(p, Stamp(t), Stamp(u));
    assert BackupPath(d, t)[|p|..] == Stamp(t) && BackupPath(d, u)[|p|..] == Stamp(u);
  }
}
