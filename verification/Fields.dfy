/** Splitting, joining and trimming of configuration strings. */
module Fields {

  // ----- splitting -----

  /** The pieces between separators; always at least one. */
  function Split(s: string, sep: char): (r: seq<string>)
    ensures r != []
  {
    if s == [] then [""]
    else
      var n := |s| - 1;
      var before := Split(s[..n], sep);
      var k := |before| - 1;
      if s[n] == sep then before + [""] else before[..k] + [before[k] + [s[n]]]
  }

  function Join(parts: seq<string>, sep: char): string
    requires parts != []
  {
    var n := |parts| - 1;
    if n == 0 then parts[0] else Join(parts[..n], sep) + [sep] + parts[n]
  }

  predicate Free(parts: seq<string>, sep: char) {
    forall p | p in parts :: sep !in p
  }

  lemma {:induction false} SplitIsFree(s: string, sep: char)
    ensures Free(Split(s, sep), sep)
  {
    if s != [] {
      var n := |s| - 1;
      SplitIsFree(s[..n], sep);
      var before := Split(s[..n], sep);
      forall p | p in Split(s, sep) ensures sep !in p {
        if p !in before && s[n] != sep {
          assert before[|before| - 1] in before;
          assert p == before[|before| - 1] + [s[n]];
        }
      }
    }
  }

  /** A character added to the last piece is added to the whole. */
  lemma {:induction false} JoinGrows(parts: seq<string>, c: char, sep: char)
    requires parts != []
    ensures var k := |parts| - 1; Join(parts[..k] + [parts[k] + [c]], sep) == Join(parts, sep) + [c]
  {
    var k := |parts| - 1;
    var after := parts[..k] + [parts[k] + [c]];
    assert after[..k] == parts[..k];
    if k > 0 {
      var front := Join(parts[..k], sep) + [sep];
      assert front + (parts[k] + [c]) == (front + parts[k]) + [c];
    }
  }

  lemma {:induction false} JoinSplit(s: string, sep: char)
    ensures Join(Split(s, sep), sep) == s
  {
    if s != [] {
      var n := |s| - 1;
      JoinSplit(s[..n], sep);
      assert s == s[..n] + [s[n]];
      var before := Split(s[..n], sep);
      var k := |before| - 1;
      if s[n] == sep {
        assert (before + [""])[..k + 1] == before;
        assert s[..n] + [sep] + "" == s;
      } else {
        JoinGrows(before, s[n], sep);
      }
    }
  }

  lemma {:induction false} SplitAfter(a: string, b: string, sep: char)
    requires sep !in b
    ensures Split(a + [sep] + b, sep) == Split(a, sep) + [b]
  {
    var s := a + [sep] + b;
    if b == [] {
      assert s[..|s| - 1] == a;
    } else {
      var n := |b| - 1;
      assert b == b[..n] + [b[n]];
      SplitAfter(a, b[..n], sep);
      assert s[..|s| - 1] == a + [sep] + b[..n];
      var before := Split(a, sep) + [b[..n]];
      assert before[..|before| - 1] == Split(a, sep);
    }
  }

  lemma {:induction false} SplitOne(b: string, sep: char)
    requires sep !in b
    ensures Split(b, sep) == [b]
  {
    if b != [] {
      var n := |b| - 1;
      SplitOne(b[..n], sep);
      assert b == b[..n] + [b[n]];
    }
  }

  lemma {:induction false} SplitJoin(parts: seq<string>, sep: char)
    requires parts != [] && Free(parts, sep)
    ensures Split(Join(parts, sep), sep) == parts
  {
    hide Split;
    var n := |parts| - 1;
    assert parts[n] in parts && parts == parts[..n] + [parts[n]];
    if n == 0 {
      SplitOne(parts[0], sep);
    } else {
      assert forall p | p in parts[..n] :: p in parts;
      SplitJoin(parts[..n], sep);
      SplitAfter(Join(parts[..n], sep), parts[n], sep);
    }
  }

  /** The pieces are the one separator-free list that joins to `s`. */
  lemma {:induction false} SplitIff(s: string, sep: char, parts: seq<string>)
    ensures parts == Split(s, sep) <==> parts != [] && Free(parts, sep) && Join(parts, sep) == s
  {
    hide Split, Join, Free;
    SplitIsFree(s, sep);
    JoinSplit(s, sep);
    if parts != [] && Free(parts, sep) { SplitJoin(parts, sep); }
  }

  lemma {:induction false} SplitChars(s: string, sep: char, p: string, c: char)
    requires p in Split(s, sep) && c in p
    ensures c in s
  {
    if s != [] {
      var n := |s| - 1;
      var before := Split(s[..n], sep);
      assert s == s[..n] + [s[n]];
      if p in before {
        SplitChars(s[..n], sep, p, c);
      } else if s[n] != sep {
        var last := before[|before| - 1];
        assert p == last + [s[n]];
        if c in last { SplitChars(s[..n], sep, last, c); }
      }
    }
  }

  /** One more character: it closes the last piece or extends it. */
  lemma {:induction false} SplitStep(s: string, i: nat, parts: seq<string>, last: string, sep: char)
    requires i < |s| && Split(s[..i], sep) == parts + [last]
    ensures Split(s[..i + 1], sep) == if s[i] == sep then parts + [last] + [""] else parts + [last + [s[i]]]
  {
    assert s[..i + 1][..i] == s[..i];
    assert (parts + [last])[..|parts|] == parts;
  }

  lemma {:induction false} SplitNothing(sep: char)
    ensures Split("", sep) == [""]
  {
  }

  /** splitComma. */
  method SplitComma(s: string) returns (parts: seq<string>)
    ensures parts == Split(s, ',')
  {
    hide Split;
    parts := [];
    var start := 0;
    SplitNothing(',');
    assert s[..0] == "" && s[0..0] == "";
    for i := 0 to |s|
      invariant 0 <= start <= i
      invariant parts + [s[start..i]] == Split(s[..i], ',')
    {
      SplitStep(s, i, parts, s[start..i], ',');
      if s[i] == ',' {
        parts := parts + [s[start..i]];
        start := i + 1;
        assert s[start..i + 1] == "";
      } else {
        assert s[start..i + 1] == s[start..i] + [s[i]];
      }
    }
    assert s[start..|s|] == s[start..] && s[..|s|] == s;
    parts := parts + [s[start..]];
  }

  // ----- trimming -----

  predicate Blank(c: char) {
    c == ' ' || c == '\t'
  }

  /** Nothing but spaces and tabs. */
  predicate Blanks(s: string) {
    forall c | c in s :: c == ' ' || c == '\t'
  }

  /** Neither end is a space or a tab. */
  predicate Trimmed(s: string) {
    s != [] ==>
      var a, z := s[0], s[|s| - 1];
      a != ' ' && a != '\t' && z != ' ' && z != '\t'
  }

  function Trim(s: string): string {
    if s == [] then []
    else if Blank(s[0]) then Trim(s[1..])
    else if Blank(s[|s| - 1]) then Trim(s[..|s| - 1])
    else s
  }

  lemma MoreBlanks(c: char, s: string)
    requires Blank(c) && Blanks(s)
    ensures Blanks([c] + s) && Blanks(s + [c])
  {
  }

  lemma Regroup(c: char, l: string, m: string, r: string)
    ensures [c] + (l + m + r) == ([c] + l) + m + r
    ensures (l + m + r) + [c] == l + m + (r + [c])
  {
  }

  /** Trimming takes blanks off both ends, and all of them. */
  lemma {:induction false} TrimParts(s: string) returns (left: string, right: string)
    ensures s == left + Trim(s) + right && Blanks(left) && Blanks(right) && Trimmed(Trim(s))
  {
    if s == [] || (!Blank(s[0]) && !Blank(s[|s| - 1])) {
      left, right := "", "";
      assert "" + s + "" == s;
    } else if Blank(s[0]) {
      left, right := TrimParts(s[1..]);
      MoreBlanks(s[0], left);
      Regroup(s[0], left, Trim(s), right);
      assert s == [s[0]] + s[1..];
      left := [s[0]] + left;
    } else {
      var n := |s| - 1;
      left, right := TrimParts(s[..n]);
      MoreBlanks(s[n], right);
      Regroup(s[n], left, Trim(s), right);
      assert s == s[..n] + [s[n]];
      right := right + [s[n]];
    }
  }

  lemma {:induction false} TrimPadded(left: string, core: string, right: string)
    requires Blanks(left) && Blanks(right) && Trimmed(core)
    ensures Trim(left + core + right) == core
    decreases |left|, |right|
  {
    var s := left + core + right;
    if left != [] {
      assert s[1..] == left[1..] + core + right;
      assert left[0] in left && forall c | c in left[1..] :: c in left;
      TrimPadded(left[1..], core, right);
    } else if right != [] {
      var n := |right| - 1;
      assert right[n] in right && forall c | c in right[..n] :: c in right;
      assert s[..|s| - 1] == left + core + right[..n];
      TrimPadded(left, core, right[..n]);
      if core == [] { AllBlank(right); assert s == right; }
    }
  }

  lemma {:induction false} AllBlank(s: string)
    requires Blanks(s)
    ensures Trim(s) == ""
  {
    if s != [] {
      assert s[0] in s && forall c | c in s[1..] :: c in s;
      AllBlank(s[1..]);
    }
  }

  lemma {:induction false} TrimIff(s: string, r: string)
    ensures r == Trim(s) <==>
      Trimmed(r) && exists left, right :: Blanks(left) && Blanks(right) && s == left + r + right
  {
    hide Trim, Trimmed;
    var l, t := TrimParts(s);
    if left, right :| Trimmed(r) && Blanks(left) && Blanks(right) && s == left + r + right {
      TrimPadded(left, r, right);
    }
  }

  lemma {:induction false} TrimChars(s: string, c: char)
    requires c in Trim(s)
    ensures c in s
  {
    hide Trim;
    var left, right := TrimParts(s);
  }

  lemma {:induction false} TrimOfTrimmed(s: string)
    requires Trimmed(s)
    ensures Trim(s) == s
  {
  }

  /** trimSpace. */
  method TrimSpace(s: string) returns (r: string)
    ensures r == Trim(s)
  {
    var start, end := 0, |s|;
    while start < end && Blank(s[start])
      invariant 0 <= start <= end == |s| && Blanks(s[..start])
    {
      assert s[..start + 1] == s[..start] + [s[start]];
      start := start + 1;
    }
    ghost var left := s[..start];
    while end > start && Blank(s[end - 1])
      invariant start <= end <= |s| && Blanks(s[end..])
    {
      assert s[end - 1..] == [s[end - 1]] + s[end..];
      end := end - 1;
    }
    r := s[start..end];
    assert s == left + r + s[end..];
    TrimPadded(left, r, s[end..]);
  }
}
