/**
 * The string operations helpers.py relies on: `str.startswith`, `str.split`,
 * `str(int)`, `str.replace` and the literal `re.sub` replacements it performs,
 * including the expansion of a `re` replacement template.
 */
module Text {
  import opened Wrappers

  /** `s.startswith(p)`. */
  predicate StartsWith(s: string, p: string)
  {
    |p| <= |s| && s[..|p|] == p
  }

  /** `s.endswith(t)`. */
  predicate EndsWith(s: string, t: string)
  {
    |t| <= |s| && s[|s| - |t|..] == t
  }

  /** Index of the first `c` in `s`, if any. */
  function IndexOf(s: string, c: char): (r: Option<nat>)
    ensures r.Some? ==> r.value < |s| && s[r.value] == c && c !in s[..r.value]
    ensures r.None? ==> c !in s
  {
    if s == [] then None
    else if s[0] == c then Some(0)
    else
      match IndexOf(s[1..], c)
      case None => None
      case Some(i) =>
        assert s[..i + 1] == [s[0]] + s[1..][..i];
        Some(i + 1)
  }

  /** The leftmost position at which `p` occurs in `s`, if any. */
  function FirstIndex(s: string, p: string): (r: Option<nat>)
    ensures r.Some? ==>
      r.value + |p| <= |s| && StartsWith(s[r.value..], p) &&
      forall j :: 0 <= j < r.value ==> !StartsWith(s[j..], p)
    ensures r.None? ==> forall j :: 0 <= j <= |s| ==> !StartsWith(s[j..], p)
    decreases |s|
  {
    if StartsWith(s, p) then Some(0)
    else if s == [] then None
    else
      match FirstIndex(s[1..], p)
      case None =>
        assert forall j :: 1 <= j <= |s| ==> s[j..] == s[1..][j - 1..];
        None
      case Some(i) =>
        assert forall j :: 1 <= j <= |s| ==> s[j..] == s[1..][j - 1..];
        Some(i + 1)
  }

  /**
   * `re.sub(p, r, s)` for a pattern that matches the literal text `p`: the
   * scan goes from left to right; where `p` matches it is replaced by `r` and
   * the scan resumes after the match, otherwise one character is kept. The
   * replaced text is not scanned again.
   */
  function ReplaceAll(s: string, p: string, r: string): string
    requires |p| > 0
    decreases |s|
  {
    if |s| < |p| then s
    else if StartsWith(s, p) then r + ReplaceAll(s[|p|..], p, r)
    else [s[0]] + ReplaceAll(s[1..], p, r)
  }

  /** A prefix in which no occurrence of `p` starts is kept as it is, and the rest is replaced. */
  lemma {:induction false} ReplaceAllSkip(s: string, n: nat, p: string, r: string)
    requires |p| > 0 && n <= |s|
    requires forall j :: 0 <= j < n ==> !StartsWith(s[j..], p)
    ensures ReplaceAll(s, p, r) == s[..n] + ReplaceAll(s[n..], p, r)
    decreases n
  {
    if n == 0 {
      assert s[..0] == [] && s[0..] == s;
    } else if |s| < |p| {
      ReplaceAllShort(s[n..], p, r);
      assert s == s[..n] + s[n..];
    } else {
      assert s[0..] == s;
      ReplaceAllKeep(s, p, r);
      NoMatchInTail(s, n, p);
      ReplaceAllSkip(s[1..], n - 1, p, r);
      KeepPrefix(s, n, ReplaceAll(s[n..], p, r));
    }
  }

  /** Where `p` does not start, the first character is kept and the scan moves on by one. */
  lemma ReplaceAllKeep(s: string, p: string, r: string)
    requires 0 < |p| <= |s| && !StartsWith(s, p)
    ensures ReplaceAll(s, p, r) == [s[0]] + ReplaceAll(s[1..], p, r)
  {
  }

  lemma NoMatchInTail(s: string, n: nat, p: string)
    requires 0 < n <= |s|
    requires forall j :: 0 <= j < n ==> !StartsWith(s[j..], p)
    ensures forall j :: 0 <= j < n - 1 ==> !StartsWith(s[1..][j..], p)
  {
    forall j | 0 <= j < n - 1 ensures !StartsWith(s[1..][j..], p) {
      assert s[1..][j..] == s[j + 1..];
    }
  }

  lemma KeepPrefix(s: string, n: nat, t: string)
    requires 0 < n <= |s|
    ensures [s[0]] + (s[1..][..n - 1] + t) == s[..n] + t
  {
    assert s[..n] == [s[0]] + s[1..][..n - 1];
  }

  /** The same for a text split at the end of such a prefix `y`. */
  lemma ReplaceAllKeepPrefix(y: string, rest: string, p: string, r: string)
    requires |p| > 0
    requires forall j :: 0 <= j < |y| ==> !StartsWith((y + rest)[j..], p)
    ensures ReplaceAll(y + rest, p, r) == y + ReplaceAll(rest, p, r)
  {
    ReplaceAllSkip(y + rest, |y|, p, r);
    assert (y + rest)[..|y|] == y && (y + rest)[|y|..] == rest;
  }

  /** A text shorter than the pattern is left alone. */
  lemma ReplaceAllShort(s: string, p: string, r: string)
    requires 0 < |p| && |s| < |p|
    ensures ReplaceAll(s, p, r) == s
  {
  }

  /** A text in which `p` occurs nowhere is left alone. */
  lemma ReplaceAllAbsent(s: string, p: string, r: string)
    requires |p| > 0
    requires forall j :: 0 <= j <= |s| ==> !StartsWith(s[j..], p)
    ensures ReplaceAll(s, p, r) == s
  {
    ReplaceAllSkip(s, |s|, p, r);
    assert s[..|s|] == s;
    ReplaceAllShort(s[|s|..], p, r);
  }

  /** An occurrence of `p` at the very start is replaced, and the scan goes on after it. */
  lemma ReplaceAllHead(p: string, rest: string, r: string)
    requires |p| > 0
    ensures ReplaceAll(p + rest, p, r) == r + ReplaceAll(rest, p, r)
  {
    assert StartsWith(p + rest, p);
    assert (p + rest)[|p|..] == rest;
  }

  /** `re.sub(p, r, s, 1)` for a literal pattern: only the leftmost occurrence is replaced. */
  function ReplaceFirst(s: string, p: string, r: string): string
    requires |p| > 0
  {
    match FirstIndex(s, p)
    case None => s
    case Some(i) => s[..i] + r + s[i + |p|..]
  }

  /** `s.split(sep)` for a one-character separator: never empty, and no part contains `sep`. */
  function Split(s: string, sep: char): (parts: seq<string>)
    ensures |parts| >= 1
    ensures forall i :: 0 <= i < |parts| ==> sep !in parts[i]
    decreases |s|
  {
    if s == [] then [[]]
    else
      var rest := Split(s[1..], sep);
      if s[0] == sep then [[]] + rest
      else [[s[0]] + rest[0]] + rest[1..]
  }

  /** `sep.join(parts)`. */
  function Join(parts: seq<string>, sep: char): string
    requires |parts| >= 1
  {
    if |parts| == 1 then parts[0] else parts[0] + [sep] + Join(parts[1..], sep)
  }

  /** Joining the parts of a split gives back the string. */
  lemma {:induction false} JoinSplit(s: string, sep: char)
    ensures Join(Split(s, sep), sep) == s
    decreases |s|
  {
    if s != [] {
      JoinSplit(s[1..], sep);
      var rest := Split(s[1..], sep);
      if s[0] != sep {
        if |rest| > 1 {
          assert ([[s[0]] + rest[0]] + rest[1..])[1..] == rest[1..];
        }
      }
    }
  }

  lemma {:induction false} SplitFree(a: string, sep: char)
    requires sep !in a
    ensures Split(a, sep) == [a]
    decreases |a|
  {
    if a != [] {
      SplitFree(a[1..], sep);
      assert [a[0]] + a[1..] == a;
    }
  }

  lemma {:induction false} SplitAfterFree(a: string, sep: char, b: string)
    requires sep !in a
    ensures Split(a + [sep] + b, sep) == [a] + Split(b, sep)
    decreases |a|
  {
    if a == [] {
      assert a + [sep] + b == [sep] + b;
      assert ([sep] + b)[1..] == b;
    } else {
      SplitAfterFree(a[1..], sep, b);
      assert (a + [sep] + b)[1..] == a[1..] + [sep] + b;
      assert [a[0]] + a[1..] == a;
    }
  }

  /** Splitting a join of separator-free parts gives back the parts. */
  lemma {:induction false} SplitJoin(parts: seq<string>, sep: char)
    requires |parts| >= 1
    requires forall i :: 0 <= i < |parts| ==> sep !in parts[i]
    ensures Split(Join(parts, sep), sep) == parts
    decreases |parts|
  {
    if |parts| == 1 {
      SplitFree(parts[0], sep);
    } else {
      SplitJoin(parts[1..], sep);
      SplitAfterFree(parts[0], sep, Join(parts[1..], sep));
      assert [parts[0]] + parts[1..] == parts;
    }
  }

  function Digit(d: nat): char
    requires d < 10
  {
    "0123456789"[d]
  }

  lemma DigitValue(d: nat)
    requires d < 10
    ensures Digit(d) as int - '0' as int == d
  {
    assert "0123456789"[d] as int == '0' as int + d by {
      if d < 5 {
        assert d == 0 || d == 1 || d == 2 || d == 3 || d == 4;
      } else {
        assert d == 5 || d == 6 || d == 7 || d == 8 || d == 9;
      }
    }
  }

  /** `str(n)` for a natural number: decimal digits, most significant first. */
  function NatToString(n: nat): (s: string)
    ensures |s| >= 1
    ensures forall k :: 0 <= k < |s| ==> '0' <= s[k] <= '9'
    ensures s[0] == '0' <==> n == 0
    ensures |s| == 1 || s[0] != '0'
  {
    if n < 10 then
      DigitValue(n);
      [Digit(n)]
    else
      NatToString(n / 10) + [Digit(n % 10)]
  }

  /** `str(i)`. */
  function IntToString(i: int): string
  {
    if i < 0 then "-" + NatToString(-i) else NatToString(i)
  }

  /** The value of a string of decimal digits. */
  function DigitsValue(s: string): nat
    requires forall k :: 0 <= k < |s| ==> '0' <= s[k] <= '9'
  {
    if s == [] then 0 else 10 * DigitsValue(s[..|s| - 1]) + (s[|s| - 1] as int - '0' as int)
  }

  /** `str(n)` can be read back: the digits denote `n`. */
  lemma {:induction false} NatToStringValue(n: nat)
    ensures DigitsValue(NatToString(n)) == n
  {
    var s := NatToString(n);
    DigitValue(n % 10);
    if n < 10 {
      assert s == [Digit(n)] && s[..0] == [];
    } else {
      NatToStringValue(n / 10);
      assert s[..|s| - 1] == NatToString(n / 10);
      assert s[|s| - 1] == Digit(n % 10);
      assert DigitsValue(s) == 10 * (n / 10) + n % 10;
    }
  }

  /** Why a `re` replacement template could not be expanded (Python raises `re.error`). */
  datatype TemplateError = TrailingBackslash | BadGroup(group: nat) | UnmodelledEscape(c: char)

  /** `t.replace("\\", "\\\\")`: every backslash doubled. */
  function Escape(t: string): string
  {
    if t == [] then [] else (if t[0] == '\\' then "\\\\" else [t[0]]) + Escape(t[1..])
  }

  /**
   * The text a `re` replacement template produces for a match whose groups are
   * `groups`: `\\` stands for one backslash and `\1` .. `\9` (not followed by a
   * digit) for a group. The other escapes of `re` templates are not modelled and
   * are reported as UnmodelledEscape.
   */
  function Expand(t: string, groups: seq<string>): Result<string, TemplateError>
    decreases |t|
  {
    if t == [] then Ok([])
    else if t[0] != '\\' then
      match Expand(t[1..], groups)
      case Err(e) => Err(e)
      case Ok(rest) => Ok([t[0]] + rest)
    else if |t| == 1 then Err(TrailingBackslash)
    else if t[1] == '\\' then
      match Expand(t[2..], groups)
      case Err(e) => Err(e)
      case Ok(rest) => Ok("\\" + rest)
    else if '1' <= t[1] <= '9' && !(|t| > 2 && '0' <= t[2] <= '9') then
      var g := t[1] as int - '0' as int;
      if g > |groups| then Err(BadGroup(g))
      else
        match Expand(t[2..], groups)
        case Err(e) => Err(e)
        case Ok(rest) => Ok(groups[g - 1] + rest)
    else Err(UnmodelledEscape(t[1]))
  }

  /** Doubling the backslashes makes any text a template that expands to itself. */
  lemma {:induction false} ExpandEscape(s: string, groups: seq<string>)
    ensures Expand(Escape(s), groups) == Ok(s)
    decreases |s|
  {
    if s != [] {
      ExpandEscape(s[1..], groups);
      if s[0] == '\\' {
        assert Escape(s) == "\\\\" + Escape(s[1..]);
        assert Escape(s)[2..] == Escape(s[1..]);
        assert "\\" + s[1..] == s;
      } else {
        assert Escape(s) == [s[0]] + Escape(s[1..]);
        assert Escape(s)[1..] == Escape(s[1..]);
        assert [s[0]] + s[1..] == s;
      }
    }
  }

  /** Text without backslashes in front of a template passes through literally. */
  lemma {:induction false} ExpandLiteralPrefix(a: string, t: string, groups: seq<string>)
    requires '\\' !in a
    ensures Expand(a + t, groups) ==
      match Expand(t, groups)
      case Err(e) => Err(e)
      case Ok(rest) => Ok(a + rest)
    decreases |a|
  {
    if a != [] {
      ExpandLiteralPrefix(a[1..], t, groups);
      assert (a + t)[0] == a[0] && a[0] != '\\';
      assert (a + t)[1..] == a[1..] + t;
      match Expand(t, groups)
      case Err(e) =>
      case Ok(rest) => assert [a[0]] + (a[1..] + rest) == a + rest;
    } else {
      assert a + t == t;
      match Expand(t, groups)
      case Err(e) =>
      case Ok(rest) => assert a + rest == rest;
    }
  }

  /** The template `<name> \1` expands to `<name> ` followed by group 1 when the name has no backslash. */
  lemma NameTemplate(name: string, group: string)
    requires '\\' !in name
    ensures Expand(name + " \\1", [group]) == Ok(name + " " + group)
  {
    var t := "\\1";
    assert t[0] == '\\' && |t| == 2 && t[1] == '1' && t[2..] == [];
    assert Expand(t[2..], [group]) == Ok([]);
    assert Expand(t, [group]) == Ok(group + []);
    assert group + [] == group;
    assert '\\' !in name + " ";
    ExpandLiteralPrefix(name + " ", t, [group]);
    assert (name + " ") + t == name + " \\1";
  }
}
