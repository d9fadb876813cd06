/** Text operations the application performs on strings: `join`, `split`,
    `trim`, `startsWith` and code-point ordering (`localeCompare` on the
    `YYYY-MM-DD` strings the rate cache stores). */
module Text {
  import opened Domain

  /** `parts.join(sep)`. */
  function Join(parts: seq<string>, sep: string): string {
    if |parts| == 0 then ""
    else if |parts| == 1 then parts[0]
    else parts[0] + sep + Join(parts[1..], sep)
  }

  /** `s.split(c)` for a one-character separator. */
  function Split(s: string, c: char): (r: seq<string>)
    ensures |r| >= 1
    ensures forall i :: 0 <= i < |r| ==> c !in r[i]
  {
    SplitFrom(s, c, "")
  }

  /** Splits `s`, with `acc` the part of the current piece already read. */
  function SplitFrom(s: string, c: char, acc: string): (r: seq<string>)
    requires c !in acc
    ensures |r| >= 1
    ensures forall i :: 0 <= i < |r| ==> c !in r[i]
  {
    if |s| == 0 then [acc]
    else if s[0] == c then [acc] + SplitFrom(s[1..], c, "")
    else SplitFrom(s[1..], c, acc + [s[0]])
  }

  lemma {:induction false} SplitFromPiece(p: string, rest: string, c: char, acc: string)
    requires c !in acc && c !in p
    ensures SplitFrom(p + rest, c, acc) == SplitFrom(rest, c, acc + p)
    decreases |p|
  {
    if |p| > 0 {
      assert (p + rest)[1..] == p[1..] + rest;
      assert (p + rest)[0] == p[0];
      SplitFromPiece(p[1..], rest, c, acc + [p[0]]);
      assert acc + [p[0]] + p[1..] == acc + p;
    } else {
      assert p + rest == rest;
      assert acc + p == acc;
    }
  }

  /** Splitting at the separator undoes joining, when no part holds it. */
  lemma {:induction false} SplitJoin(parts: seq<string>, c: char)
    requires |parts| >= 1
    requires forall i :: 0 <= i < |parts| ==> c !in parts[i]
    ensures Split(Join(parts, [c]), c) == parts
  {
    SplitJoinFrom(parts, c);
  }

  lemma {:induction false} SplitJoinFrom(parts: seq<string>, c: char)
    requires |parts| >= 1
    requires forall i :: 0 <= i < |parts| ==> c !in parts[i]
    ensures SplitFrom(Join(parts, [c]), c, "") == parts
  {
    if |parts| == 1 {
      SplitFromPiece(parts[0], "", c, "");
      assert parts[0] + "" == parts[0];
      assert "" + parts[0] == parts[0];
    } else {
      var tail := Join(parts[1..], [c]);
      assert Join(parts, [c]) == parts[0] + ([c] + tail);
      SplitFromPiece(parts[0], [c] + tail, c, "");
      assert "" + parts[0] == parts[0];
      assert ([c] + tail)[1..] == tail;
      SplitJoinFrom(parts[1..], c);
      assert parts == [parts[0]] + parts[1..];
    }
  }

  /** The characters `String.prototype.trim` removes: white space (tab,
      vertical tab, form feed, space, no-break space, byte-order mark and the
      other space separators) and line terminators. */
  predicate IsSpace(ch: char) {
    ch == '\t' || ch == '\U{B}' || ch == '\U{C}' || ch == ' ' || ch == '\U{A0}' || ch == '\U{FEFF}' ||
    ch == '\U{1680}' || ('\U{2000}' <= ch <= '\U{200A}') || ch == '\U{202F}' || ch == '\U{205F}' ||
    ch == '\U{3000}' ||
    ch == '\n' || ch == '\r' || ch == '\U{2028}' || ch == '\U{2029}'
  }

  function TrimStart(s: string): (r: string)
    ensures |r| <= |s| && r == s[|s| - |r|..]
    ensures |r| > 0 ==> !IsSpace(r[0])
    ensures forall i :: 0 <= i < |s| - |r| ==> IsSpace(s[i])
  {
    if |s| > 0 && IsSpace(s[0]) then TrimStart(s[1..]) else s
  }

  function TrimEnd(s: string): (r: string)
    ensures |r| <= |s| && r == s[..|r|]
    ensures |r| > 0 ==> !IsSpace(r[|r| - 1])
    ensures forall i :: |r| <= i < |s| ==> IsSpace(s[i])
  {
    if |s| > 0 && IsSpace(s[|s| - 1]) then TrimEnd(s[..|s| - 1]) else s
  }

  /** `s.trim()`: `s` without leading and trailing white space. */
  function Trim(s: string): (r: string)
  {
    TrimEnd(TrimStart(s))
  }

  /** `s.trim() || undefined`: the trimmed text, absent when it is empty. */
  function TrimOrAbsent(s: string): (r: Option<string>)
    ensures r.None? <==> Trim(s) == ""
    ensures r.Some? ==> r.value == Trim(s) && Truthy(r)
  {
    if Trim(s) == "" then None else Some(Trim(s))
  }

  /** The trimmed text is a slice of `s`, and only white space was cut off
      on either side. */
  lemma TrimIsCore(s: string)
    ensures var r := Trim(s);
      var lo := |s| - |TrimStart(s)|;
      0 <= lo <= |s| - |r| && r == s[lo..lo + |r|] &&
      (forall i :: 0 <= i < lo ==> IsSpace(s[i])) &&
      (forall i :: lo + |r| <= i < |s| ==> IsSpace(s[i]))
  {
    CutSpaces(s, TrimStart(s), Trim(s));
  }

  /** Cutting white space off the front of `s` (giving `t`) and then off the
      back of `t` (giving `r`) leaves a slice of `s` with only white space
      around it. */
  lemma CutSpaces(s: string, t: string, r: string)
    requires |t| <= |s| && t == s[|s| - |t|..] && (forall i :: 0 <= i < |s| - |t| ==> IsSpace(s[i]))
    requires |r| <= |t| && r == t[..|r|] && (forall i :: |r| <= i < |t| ==> IsSpace(t[i]))
    ensures var lo := |s| - |t|;
      0 <= lo <= |s| - |r| && r == s[lo..lo + |r|] &&
      (forall i :: 0 <= i < lo ==> IsSpace(s[i])) &&
      (forall i :: lo + |r| <= i < |s| ==> IsSpace(s[i]))
  {
    var lo := |s| - |t|;
    SliceOfSuffix(s, t, r, lo);
    forall i | lo + |r| <= i < |s|
      ensures IsSpace(s[i])
    {
      assert s[i] == t[i - lo];
    }
  }

  /** The trimmed text neither starts nor ends with white space. */
  lemma TrimEnds(s: string)
    ensures |Trim(s)| > 0 ==> !IsSpace(Trim(s)[0]) && !IsSpace(Trim(s)[|Trim(s)| - 1])
  {
    var t := TrimStart(s);
    var r := TrimEnd(t);
    if |r| > 0 {
      assert r[0] == t[0];
    }
  }

  /** A prefix `r` of the suffix `t` of `s` from `lo` is the slice of `s`
      from `lo`, and the rest of `t` is the rest of `s`. */
  lemma SliceOfSuffix(s: string, t: string, r: string, lo: int)
    requires 0 <= lo <= |s| && t == s[lo..] && |r| <= |t| && r == t[..|r|]
    ensures r == s[lo..lo + |r|]
    ensures forall i :: lo + |r| <= i < |s| ==> s[i] == t[i - lo]
  {
  }

  /** Text with no white space at either end is its own trim. */
  lemma TrimUnpadded(s: string)
    requires |s| > 0 ==> !IsSpace(s[0]) && !IsSpace(s[|s| - 1])
    ensures Trim(s) == s
  {
    assert TrimStart(s) == s;
    assert TrimEnd(s) == s;
  }

  /** Trimming twice is trimming once. */
  lemma TrimIdempotent(s: string)
    ensures Trim(Trim(s)) == Trim(s)
  {
    TrimEnds(s);
    TrimUnpadded(Trim(s));
  }

  /** A string that is blank once trimmed is made of white space only. */
  lemma TrimEmptyIffBlank(s: string)
    ensures Trim(s) == "" <==> forall i :: 0 <= i < |s| ==> IsSpace(s[i])
  {
    TrimIsCore(s);
    if forall i :: 0 <= i < |s| ==> IsSpace(s[i]) {
      BlankTrimsToEmpty(s);
    }
  }

  lemma {:induction false} BlankTrimsToEmpty(s: string)
    requires forall i :: 0 <= i < |s| ==> IsSpace(s[i])
    ensures TrimStart(s) == ""
  {
    if |s| > 0 {
      BlankTrimsToEmpty(s[1..]);
    }
  }

  predicate StartsWith(s: string, prefix: string) {
    |prefix| <= |s| && s[..|prefix|] == prefix
  }

  /** Code-point (lexicographic) order, which `localeCompare` agrees with on
      the fixed-width `YYYY-MM-DD` dates it is applied to. */
  predicate LexLe(a: string, b: string) {
    |a| == 0 || (|b| > 0 && (a[0] < b[0] || (a[0] == b[0] && LexLe(a[1..], b[1..]))))
  }

  lemma {:induction false} LexTotal(a: string, b: string)
    ensures LexLe(a, b) || LexLe(b, a)
  {
    if |a| > 0 && |b| > 0 && a[0] == b[0] {
      LexTotal(a[1..], b[1..]);
    }
  }

  lemma {:induction false} LexTransitive(a: string, b: string, c: string)
    requires LexLe(a, b) && LexLe(b, c)
    ensures LexLe(a, c)
  {
    if |a| > 0 && |b| > 0 && |c| > 0 && a[0] == b[0] && b[0] == c[0] {
      LexTransitive(a[1..], b[1..], c[1..]);
    }
  }

  /** Two strings that are each at most the other are equal. */
  lemma {:induction false} LexAntisymmetric(a: string, b: string)
    requires LexLe(a, b) && LexLe(b, a)
    ensures a == b
  {
    if |a| > 0 {
      LexAntisymmetric(a[1..], b[1..]);
      assert a == [a[0]] + a[1..];
      assert b == [b[0]] + b[1..];
    }
  }
}
