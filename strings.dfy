/** The JavaScript string operations the judge relies on: `trim`,
    `split` with a non-empty separator, `join`, `filter(line => line.trim())`,
    `endsWith`, `toUpperCase` on ASCII and `length` counted in UTF-16 code units. */
module Strings {
  import opened Wrappers

  /** The code points JavaScript's WhiteSpace and LineTerminator productions
      name: exactly what `String.prototype.trim` strips. */
  predicate IsJsWhitespace(c: char) {
    || c == '\t' || c == '\n' || c == '\U{B}' || c == '\U{C}' || c == '\r' || c == ' '
    || c == '\U{A0}' || c == '\U{1680}' || ('\U{2000}' <= c <= '\U{200A}')
    || c == '\U{2028}' || c == '\U{2029}' || c == '\U{202F}' || c == '\U{205F}'
    || c == '\U{3000}' || c == '\U{FEFF}'
  }

  function TrimStart(s: string): (r: string)
    ensures |r| <= |s| && r == s[|s| - |r|..]
    ensures r == [] || !IsJsWhitespace(r[0])
    ensures forall i :: 0 <= i < |s| - |r| ==> IsJsWhitespace(s[i])
  {
    if |s| > 0 && IsJsWhitespace(s[0]) then TrimStart(s[1..]) else s
  }

  function TrimEnd(s: string): (r: string)
    ensures |r| <= |s| && r == s[..|r|]
    ensures r == [] || !IsJsWhitespace(r[|r| - 1])
    ensures forall i :: |r| <= i < |s| ==> IsJsWhitespace(s[i])
  {
    if |s| > 0 && IsJsWhitespace(s[|s| - 1]) then TrimEnd(s[..|s| - 1]) else s
  }

  /** `s.trim()`: a contiguous slice of `s` whose ends are not white space,
      everything cut away being white space. */
  function Trim(s: string): (r: string)
    ensures |r| <= |s|
    ensures r == [] || (!IsJsWhitespace(r[0]) && !IsJsWhitespace(r[|r| - 1]))
    ensures exists a, b :: (0 <= a <= b <= |s| && r == s[a..b]
                             && (forall k :: 0 <= k < a ==> IsJsWhitespace(s[k]))
                             && (forall k :: b <= k < |s| ==> IsJsWhitespace(s[k])))
  {
    var t := TrimStart(s);
    var r := TrimEnd(t);
    var a := |s| - |t|;
    assert r == s[a..a + |r|];
    r
  }

  /** Trimming only removes characters. */
  lemma TrimKeepsOut(s: string, c: char)
    requires c !in s
    ensures c !in Trim(s)
  {
    var t := TrimStart(s);
    var r := TrimEnd(t);
    forall i | 0 <= i < |r| ensures r[i] != c {
      assert r[i] == t[i] == s[|s| - |t| + i];
    }
  }

  /** `!line.trim()`: the line holds nothing but white space. */
  predicate IsBlank(s: string) {
    Trim(s) == ""
  }

  lemma {:induction false} TrimStartAllWhitespace(s: string)
    ensures TrimStart(s) == "" <==> forall i :: 0 <= i < |s| ==> IsJsWhitespace(s[i])
  {
  }

  lemma BlankIffAllWhitespace(s: string)
    ensures IsBlank(s) <==> forall i :: 0 <= i < |s| ==> IsJsWhitespace(s[i])
  {
    var t := TrimStart(s);
    TrimStartAllWhitespace(s);
    if t != "" {
      assert !IsJsWhitespace(t[0]);
      assert TrimEnd(t) != "";
    }
  }

  lemma {:induction false} TrimStartIdempotent(s: string)
    requires s == [] || !IsJsWhitespace(s[0])
    ensures TrimStart(s) == s
  {
  }

  lemma {:induction false} TrimEndIdempotent(s: string)
    requires s == [] || !IsJsWhitespace(s[|s| - 1])
    ensures TrimEnd(s) == s
  {
  }

  /** Trimming a trimmed string changes nothing. */
  lemma TrimIdempotent(s: string)
    ensures Trim(Trim(s)) == Trim(s)
  {
    var r := Trim(s);
    TrimStartIdempotent(r);
    TrimEndIdempotent(r);
  }

  /** `lines.filter((line) => line.trim())`: the non-blank lines, in order. */
  function KeepNonBlank(lines: seq<string>): (r: seq<string>)
    ensures |r| <= |lines|
    ensures forall i :: 0 <= i < |r| ==> !IsBlank(r[i])
  {
    if |lines| == 0 then []
    else (if IsBlank(lines[0]) then [] else [lines[0]]) + KeepNonBlank(lines[1..])
  }

  /** The filter distributes over concatenation: it keeps lines in order. */
  lemma {:induction false} KeepNonBlankAppend(a: seq<string>, b: seq<string>)
    ensures KeepNonBlank(a + b) == KeepNonBlank(a) + KeepNonBlank(b)
  {
    hide IsBlank, Trim;
    if |a| == 0 {
      assert a + b == b;
    } else {
      assert (a + b)[0] == a[0];
      assert (a + b)[1..] == a[1..] + b;
      KeepNonBlankAppend(a[1..], b);
    }
  }

  /** A single line is kept exactly when it is not blank. */
  lemma KeepNonBlankSingle(l: string)
    ensures KeepNonBlank([l]) == if IsBlank(l) then [] else [l]
  {
    assert [l][1..] == [];
  }

  /** A line survives the filter exactly when it is a non-blank line of the input. */
  lemma {:induction false} KeepNonBlankMembers(lines: seq<string>, l: string)
    ensures l in KeepNonBlank(lines) <==> l in lines && !IsBlank(l)
  {
    hide IsBlank, Trim;
    if |lines| > 0 {
      KeepNonBlankMembers(lines[1..], l);
      assert lines == [lines[0]] + lines[1..];
    }
  }

  /** Filtering lines none of which is blank keeps them all. */
  lemma {:induction false} KeepNonBlankAll(lines: seq<string>)
    requires forall i :: 0 <= i < |lines| ==> !IsBlank(lines[i])
    ensures KeepNonBlank(lines) == lines
  {
    if |lines| > 0 {
      KeepNonBlankAll(lines[1..]);
    }
  }

  // ---------------------------------------------------------------------------
  // split and join

  /** `sep` starts at index `k` of `s`. */
  predicate OccursAt(s: string, sep: string, k: int) {
    0 <= k && k + |sep| <= |s| && s[k..k + |sep|] == sep
  }

  /** The first occurrence of `sep` in `s` at or after `from`. */
  function FindFrom(s: string, sep: string, from: nat): (r: Option<nat>)
    requires |sep| > 0
    ensures r.Some? ==> from <= r.value && OccursAt(s, sep, r.value)
    ensures r.Some? ==> forall j :: from <= j < r.value ==> !OccursAt(s, sep, j)
    ensures r.None? ==> forall j :: from <= j ==> !OccursAt(s, sep, j)
    decreases |s| - from
  {
    if from + |sep| > |s| then None
    else if OccursAt(s, sep, from) then Some(from)
    else FindFrom(s, sep, from + 1)
  }

  /** The pieces of `s[start..]` between the occurrences of `sep`, found
      left to right without overlap, as JavaScript's `split` does. */
  function SplitFrom(s: string, sep: string, start: nat): (r: seq<string>)
    requires |sep| > 0 && start <= |s|
    ensures |r| >= 1
    decreases |s| - start
  {
    match FindFrom(s, sep, start)
    case None => [s[start..]]
    case Some(k) => [s[start..k]] + SplitFrom(s, sep, k + |sep|)
  }

  /** `s.split(sep)` for a non-empty separator. */
  function Split(s: string, sep: string): (r: seq<string>)
    requires |sep| > 0
    ensures |r| >= 1
  {
    SplitFrom(s, sep, 0)
  }

  /** `parts.join(sep)`. */
  function Join(parts: seq<string>, sep: string): string {
    if |parts| == 0 then ""
    else if |parts| == 1 then parts[0]
    else parts[0] + sep + Join(parts[1..], sep)
  }

  lemma {:induction false} JoinSplitFrom(s: string, sep: string, start: nat)
    requires |sep| > 0 && start <= |s|
    ensures Join(SplitFrom(s, sep, start), sep) == s[start..]
    decreases |s| - start
  {
    match FindFrom(s, sep, start)
    case None =>
    case Some(k) =>
      JoinSplitFrom(s, sep, k + |sep|);
      var rest := SplitFrom(s, sep, k + |sep|);
      assert ([s[start..k]] + rest)[1..] == rest;
      assert s[start..] == s[start..k] + sep + s[k + |sep|..];
  }

  /** Joining the pieces of a split with the same separator gives the text back. */
  lemma JoinSplit(s: string, sep: string)
    requires |sep| > 0
    ensures Join(Split(s, sep), sep) == s
  {
    JoinSplitFrom(s, sep, 0);
  }

  /** An occurrence inside the slice `s[a..b]` is one in `s`, shifted by `a`. */
  lemma SliceOccurs(s: string, sep: string, a: nat, b: nat, j: nat)
    requires a <= b <= |s| && j + |sep| <= b - a
    ensures OccursAt(s[a..b], sep, j) == OccursAt(s, sep, a + j)
  {
    var u := s[a..b][j..j + |sep|];
    var v := s[a + j..a + j + |sep|];
    forall t | 0 <= t < |sep| ensures u[t] == v[t] {
      assert u[t] == s[a..b][j + t] == s[a + j + t];
    }
    assert u == v;
  }

  /** A slice of `s` in which no occurrence of `sep` starts and ends
      holds no occurrence of `sep`. */
  lemma SliceFree(s: string, sep: string, a: nat, b: nat)
    requires a <= b <= |s|
    requires forall j :: a <= j && j + |sep| <= b ==> !OccursAt(s, sep, j)
    ensures forall j :: !OccursAt(s[a..b], sep, j)
  {
    forall j ensures !OccursAt(s[a..b], sep, j) {
      if 0 <= j && j + |sep| <= b - a {
        SliceOccurs(s, sep, a, b, j);
      }
    }
  }

  lemma {:induction false} SplitFromPiecesFree(s: string, sep: string, start: nat)
    requires |sep| > 0 && start <= |s|
    ensures forall i, j :: 0 <= i < |SplitFrom(s, sep, start)| ==> !OccursAt(SplitFrom(s, sep, start)[i], sep, j)
    decreases |s| - start
  {
    hide FindFrom;
    var r := SplitFrom(s, sep, start);
    match FindFrom(s, sep, start)
    case None =>
      SliceFree(s, sep, start, |s|);
      assert r == [s[start..]];
      assert s[start..] == s[start..|s|];
    case Some(k) =>
      SliceFree(s, sep, start, k);
      SplitFromPiecesFree(s, sep, k + |sep|);
      var rest := SplitFrom(s, sep, k + |sep|);
      assert r == [s[start..k]] + rest;
      forall i, j | 0 <= i < |r| ensures !OccursAt(r[i], sep, j) {
        if i > 0 {
          assert r[i] == rest[i - 1];
        }
      }
  }

  /** No piece of a split contains the separator. */
  lemma SplitPiecesFree(s: string, sep: string)
    requires |sep| > 0
    ensures forall i, j :: 0 <= i < |Split(s, sep)| ==> !OccursAt(Split(s, sep)[i], sep, j)
  {
    SplitFromPiecesFree(s, sep, 0);
  }

  /** The first occurrence at or after `from` is any occurrence with none before it. */
  lemma FindFromIs(s: string, sep: string, from: nat, k: nat)
    requires |sep| > 0 && from <= k && OccursAt(s, sep, k)
    requires forall j :: from <= j < k ==> !OccursAt(s, sep, j)
    ensures FindFrom(s, sep, from) == Some(k)
  {
  }

  lemma {:induction false} FindFromShift(s: string, sep: string, start: nat, j: nat)
    requires |sep| > 0 && start <= |s|
    ensures FindFrom(s, sep, start + j) ==
      match FindFrom(s[start..], sep, j)
      case None => None
      case Some(k) => Some(k + start)
    decreases |s| - start - j
  {
    var t := s[start..];
    if start + j + |sep| <= |s| {
      assert t[j..j + |sep|] == s[start + j..start + j + |sep|];
      assert OccursAt(s, sep, start + j) == OccursAt(t, sep, j);
      if !OccursAt(s, sep, start + j) {
        FindFromShift(s, sep, start, j + 1);
      }
    }
  }

  /** A match found from `from` lies wholly inside `s`, at or after `from`. */
  lemma FindFromInside(s: string, sep: string, from: nat)
    requires |sep| > 0
    ensures match FindFrom(s, sep, from)
      case None => true
      case Some(k) => from <= k && k + |sep| <= |s|
  {
    hide FindFrom;
  }

  lemma {:induction false} SplitFromShift(s: string, sep: string, start: nat, j: nat)
    requires |sep| > 0 && start + j <= |s|
    ensures SplitFrom(s, sep, start + j) == SplitFrom(s[start..], sep, j)
    decreases |s| - start - j
  {
    hide FindFrom, OccursAt;
    var t := s[start..];
    FindFromShift(s, sep, start, j);
    FindFromInside(t, sep, j);
    match FindFrom(t, sep, j)
    case None =>
      assert FindFrom(s, sep, start + j) == None;
      assert s[start + j..] == t[j..];
    case Some(k) =>
      assert FindFrom(s, sep, start + j) == Some(start + k);
      assert s[start + j..start + k] == t[j..k];
      SplitFromShift(s, sep, start, k + |sep|);
      assert SplitFrom(s, sep, start + j) == [s[start + j..start + k]] + SplitFrom(s, sep, start + k + |sep|);
  }

  /** Splitting on a one-character separator undoes joining with it when no
      part contains that character. */
  lemma {:induction false} SplitJoinChar(parts: seq<string>, c: char)
    requires |parts| >= 1
    requires forall i :: 0 <= i < |parts| ==> c !in parts[i]
    ensures Split(Join(parts, [c]), [c]) == parts
  {
    var p0 := parts[0];
    if |parts| == 1 {
      forall j ensures !OccursAt(p0, [c], j) {
        if 0 <= j < |p0| {
          assert p0[j..j + 1] == [p0[j]];
        }
      }
      assert FindFrom(p0, [c], 0) == None;
    } else {
      var rest := parts[1..];
      var t := Join(rest, [c]);
      var s := Join(parts, [c]);
      assert s == p0 + [c] + t;
      forall j | 0 <= j < |p0| ensures !OccursAt(s, [c], j) {
        assert s[j] == p0[j];
      }
      assert s[|p0|..|p0| + 1] == [c];
      FindFromIs(s, [c], 0, |p0|);
      assert s[0..|p0|] == p0;
      SplitFromShift(s, [c], |p0| + 1, 0);
      assert s[|p0| + 1..] == t;
      SplitJoinChar(rest, c);
    }
  }

  /** No occurrence of `sep` overlaps another one. */
  ghost predicate NoSelfOverlap(sep: string) {
    forall d :: 0 < d < |sep| ==> sep[d..] != sep[..|sep| - d]
  }

  /** `sep` occurs in `s` at exactly one index. */
  ghost predicate OccursOnce(s: string, sep: string) {
    exists k :: OccursAt(s, sep, k) && forall j :: OccursAt(s, sep, j) ==> j == k
  }

  lemma OverlapShift(s: string, sep: string, k: int, j: int)
    requires OccursAt(s, sep, k) && OccursAt(s, sep, j) && k < j < k + |sep|
    ensures sep[j - k..] == sep[..|sep| - (j - k)]
  {
    assert s[j..k + |sep|] == sep[j - k..];
    assert s[j..k + |sep|] == sep[..|sep| - (j - k)];
  }

  lemma OverlapImpossible(s: string, sep: string, k: int, j: int)
    requires NoSelfOverlap(sep) && OccursAt(s, sep, k) && OccursAt(s, sep, j)
    ensures j <= k || k + |sep| <= j
  {
    if k < j < k + |sep| {
      OverlapShift(s, sep, k, j);
      assert false;
    }
  }

  /** For a separator that cannot overlap itself, the split has exactly two
      pieces iff the separator occurs exactly once, and then the pieces are
      the text before and after it. */
  lemma SplitTwoIffOnce(s: string, sep: string)
    requires |sep| > 0 && NoSelfOverlap(sep)
    ensures |Split(s, sep)| == 2 <==> OccursOnce(s, sep)
    ensures OccursOnce(s, sep) ==>
      exists k :: OccursAt(s, sep, k) && Split(s, sep) == [s[..k], s[k + |sep|..]]
  {
    match FindFrom(s, sep, 0)
    case None =>
      assert Split(s, sep) == [s];
      assert !OccursOnce(s, sep);
    case Some(k) =>
      var rest := SplitFrom(s, sep, k + |sep|);
      assert Split(s, sep) == [s[..k]] + rest;
      match FindFrom(s, sep, k + |sep|)
      case None =>
        assert rest == [s[k + |sep|..]];
        forall j | OccursAt(s, sep, j) ensures j == k {
          OverlapImpossible(s, sep, k, j);
        }
        assert OccursOnce(s, sep);
      case Some(k2) =>
        assert |rest| >= 2;
        assert OccursAt(s, sep, k) && OccursAt(s, sep, k2) && k != k2;
        assert !OccursOnce(s, sep);
  }

  // ---------------------------------------------------------------------------
  // other string helpers

  /** `s.endsWith(suffix)`. */
  predicate EndsWith(s: string, suffix: string) {
    |suffix| <= |s| && s[|s| - |suffix|..] == suffix
  }

  /** `s.length`: UTF-16 code units, two for a code point above U+FFFF. */
  function Utf16Length(s: string): (n: nat)
    ensures |s| <= n <= 2 * |s|
  {
    if |s| == 0 then 0
    else Utf16Length(s[..|s| - 1]) + (if s[|s| - 1] as int > 0xFFFF then 2 else 1)
  }

  /** A JavaScript string of length 1 is exactly one code point of the basic
      multilingual plane. */
  lemma Utf16LengthOne(s: string)
    ensures Utf16Length(s) == 1 <==> |s| == 1 && s[0] as int <= 0xFFFF
  {
    if |s| == 1 {
      assert s[..0] == [];
    }
  }

  function AsciiUpperChar(c: char): char {
    if 'a' <= c <= 'z' then (c as int - 32) as char else c
  }

  /** `s.toUpperCase()` on ASCII text. */
  function AsciiUpper(s: string): (r: string)
    ensures |r| == |s| && forall i :: 0 <= i < |s| ==> r[i] == AsciiUpperChar(s[i])
  {
    seq(|s|, i requires 0 <= i < |s| => AsciiUpperChar(s[i]))
  }
}
