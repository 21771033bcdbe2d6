/**
 * The string operations the services use: case mapping, whitespace
 * stripping, substring search, first-occurrence replacement and decimal
 * rendering of natural numbers. Case mapping and whitespace are ASCII only;
 * Python's and JavaScript's whitespace differ there, so trims name their runtime.
 */
module Strings {

  // ---------------------------------------------------------------- case

  /**
   * ASCII case mapping of one character: a letter goes to lower case, or to
   * upper case when `upper`; every other character is kept.
   */
  function CaseChar(c: char, upper: bool): (d: char)
    ensures !upper && 'A' <= c <= 'Z' ==> 'a' <= d <= 'z' && d as int - 'a' as int == c as int - 'A' as int
    ensures upper && 'a' <= c <= 'z' ==> 'A' <= d <= 'Z' && d as int - 'A' as int == c as int - 'a' as int
    ensures !(if upper then 'a' <= c <= 'z' else 'A' <= c <= 'Z') ==> d == c
  {
    if !upper && 'A' <= c <= 'Z' then (c as int - 'A' as int + 'a' as int) as char
    else if upper && 'a' <= c <= 'z' then (c as int - 'a' as int + 'A' as int) as char
    else c
  }

  /** `s.lower()` / `s.toLowerCase()` restricted to ASCII letters. */
  function Lower(s: string): (r: string)
    ensures |r| == |s|
    ensures forall i :: 0 <= i < |s| ==> r[i] == CaseChar(s[i], false)
  {
    seq(|s|, i requires 0 <= i < |s| => CaseChar(s[i], false))
  }

  /** `s.toUpperCase()` restricted to ASCII letters. */
  function Upper(s: string): (r: string)
    ensures |r| == |s|
    ensures forall i :: 0 <= i < |s| ==> r[i] == CaseChar(s[i], true)
  {
    seq(|s|, i requires 0 <= i < |s| => CaseChar(s[i], true))
  }

  lemma LowerIdempotent(s: string)
    ensures Lower(Lower(s)) == Lower(s)
  {
  }

  lemma LowerAppend(a: string, b: string)
    ensures Lower(a + b) == Lower(a) + Lower(b)
  {
  }

  lemma LowerSuffix(s: string, i: nat)
    requires i <= |s|
    ensures Lower(s)[i..] == Lower(s[i..])
  {
  }

  // ---------------------------------------------------------- whitespace

  /** Whose notion of whitespace a trim follows. */
  datatype Runtime = Python | JavaScript

  /**
   * The ASCII whitespace of each runtime. Both strip space, tab, line feed,
   * carriage return, vertical tab and form feed; Python's `str.isspace()`
   * also counts the separators U+001C to U+001F, which `trim()` keeps.
   */
  predicate IsSpace(c: char, rt: Runtime) {
    c == ' ' || c == '\t' || c == '\n' || c == '\r' || c == '\U{000B}' || c == '\U{000C}' ||
    (rt == Python && '\U{001C}' <= c <= '\U{001F}')
  }

  function TrimStart(s: string, rt: Runtime): (r: string)
    ensures |r| <= |s| && r == s[|s| - |r|..]
    ensures r == [] || !IsSpace(r[0], rt)
    ensures forall i :: 0 <= i < |s| - |r| ==> IsSpace(s[i], rt)
  {
    if s != [] && IsSpace(s[0], rt) then TrimStart(s[1..], rt) else s
  }

  function TrimEnd(s: string, rt: Runtime): (r: string)
    ensures |r| <= |s| && r == s[..|r|]
    ensures r == [] || !IsSpace(r[|r| - 1], rt)
    ensures forall i :: |r| <= i < |s| ==> IsSpace(s[i], rt)
  {
    if s != [] && IsSpace(s[|s| - 1], rt) then TrimEnd(s[..|s| - 1], rt) else s
  }

  /** Python's `s.strip()`: leading and trailing whitespace removed. */
  function Strip(s: string): (r: string)
    ensures r == [] || (!IsSpace(r[0], Python) && !IsSpace(r[|r| - 1], Python))
  {
    TrimEnd(TrimStart(s, Python), Python)
  }

  /** JavaScript's `s.trim()`: leading and trailing whitespace removed. */
  function Trim(s: string): (r: string)
    ensures r == [] || (!IsSpace(r[0], JavaScript) && !IsSpace(r[|r| - 1], JavaScript))
  {
    TrimEnd(TrimStart(s, JavaScript), JavaScript)
  }

  /** Python's `not s.strip()`: empty or whitespace only. */
  predicate IsBlank(s: string) {
    Strip(s) == []
  }

  /** Whatever `trim()` removes `str.strip()` removes too, and the separators only the latter. */
  lemma StripRemovesSeparators(c: char)
    ensures IsSpace(c, JavaScript) ==> IsSpace(c, Python)
    ensures '\U{001C}' <= c <= '\U{001F}' ==> Strip([c]) == [] && Trim([c]) == [c]
  {
    if '\U{001C}' <= c <= '\U{001F}' {
      var s := [c];
      assert s[1..] == [];
      assert TrimStart(s, Python) == [];
      assert !IsSpace(s[0], JavaScript);
      TrimStartOfTrimmed(s, JavaScript);
      TrimEndOfTrimmed(s, JavaScript);
    }
  }

  lemma {:induction false} TrimStartOfTrimmed(s: string, rt: Runtime)
    requires s == [] || !IsSpace(s[0], rt)
    ensures TrimStart(s, rt) == s
  {
  }

  lemma {:induction false} TrimEndOfTrimmed(s: string, rt: Runtime)
    requires s == [] || !IsSpace(s[|s| - 1], rt)
    ensures TrimEnd(s, rt) == s
  {
  }

  /** Stripping twice is stripping once. */
  lemma {:induction false} StripIdempotent(s: string)
    ensures Strip(Strip(s)) == Strip(s)
  {
    var r := Strip(s);
    TrimStartOfTrimmed(r, Python);
    TrimEndOfTrimmed(r, Python);
  }

  /** Trimming twice is trimming once. */
  lemma {:induction false} TrimIdempotent(s: string)
    ensures Trim(Trim(s)) == Trim(s)
  {
    var r := Trim(s);
    TrimStartOfTrimmed(r, JavaScript);
    TrimEndOfTrimmed(r, JavaScript);
  }

  lemma CaseCharSpace(c: char, upper: bool, rt: Runtime)
    ensures IsSpace(CaseChar(c, upper), rt) == IsSpace(c, rt)
  {
  }

  lemma {:induction false} TrimStartLower(s: string)
    ensures TrimStart(Lower(s), Python) == Lower(TrimStart(s, Python))
    decreases |s|
  {
    if s != [] {
      var l := Lower(s);
      CaseCharSpace(s[0], false, Python);
      if IsSpace(s[0], Python) {
        assert l[1..] == Lower(s[1..]);
        TrimStartLower(s[1..]);
        assert TrimStart(l, Python) == TrimStart(l[1..], Python);
      } else {
        assert TrimStart(l, Python) == l;
      }
    }
  }

  lemma {:induction false} TrimEndLower(s: string)
    ensures TrimEnd(Lower(s), Python) == Lower(TrimEnd(s, Python))
    decreases |s|
  {
    if s != [] {
      var l := Lower(s);
      CaseCharSpace(s[|s| - 1], false, Python);
      if IsSpace(s[|s| - 1], Python) {
        assert l[..|s| - 1] == Lower(s[..|s| - 1]);
        TrimEndLower(s[..|s| - 1]);
        assert TrimEnd(l, Python) == TrimEnd(l[..|s| - 1], Python);
      } else {
        assert TrimEnd(l, Python) == l;
      }
    }
  }

  /** Lower-casing never creates or removes whitespace, so it commutes with stripping. */
  lemma LowerStripCommute(s: string)
    ensures Strip(Lower(s)) == Lower(Strip(s))
  {
    TrimStartLower(s);
    TrimEndLower(TrimStart(s, Python));
  }

  // -------------------------------------------------------------- search

  predicate StartsWith(s: string, prefix: string) {
    |prefix| <= |s| && s[..|prefix|] == prefix
  }

  predicate EndsWith(s: string, suffix: string) {
    |suffix| <= |s| && s[|s| - |suffix|..] == suffix
  }

  /** Python's `sub in s` and JavaScript's `s.includes(sub)`. */
  predicate Contains(s: string, sub: string)
    decreases |s|
  {
    StartsWith(s, sub) || (s != [] && Contains(s[1..], sub))
  }

  lemma {:induction false} ContainsAt(s: string, sub: string, i: nat)
    requires i + |sub| <= |s| && s[i..i + |sub|] == sub
    ensures Contains(s, sub)
    decreases i
  {
    if i > 0 {
      assert s[1..][i - 1..i - 1 + |sub|] == sub;
      ContainsAt(s[1..], sub, i - 1);
    }
  }

  lemma {:induction false} ContainsInPrefix(s: string, t: string, sub: string)
    requires Contains(s, sub)
    ensures Contains(s + t, sub)
    decreases |s|
  {
    if StartsWith(s, sub) {
      assert (s + t)[..|sub|] == s[..|sub|];
    } else {
      assert (s + t)[1..] == s[1..] + t;
      ContainsInPrefix(s[1..], t, sub);
    }
  }

  lemma {:induction false} ContainsInSuffix(s: string, t: string, sub: string)
    requires Contains(t, sub)
    ensures Contains(s + t, sub)
    decreases |s|
  {
    if s != [] {
      assert (s + t)[1..] == s[1..] + t;
      ContainsInSuffix(s[1..], t, sub);
    } else {
      assert s + t == t;
    }
  }

  /** The index of the last occurrence of `c` in `s`, or -1 (`lastIndexOf`). */
  function LastIndexOf(s: string, c: char): (i: int)
    ensures -1 <= i < |s|
    ensures i >= 0 ==> s[i] == c
    ensures forall j :: i < j < |s| ==> s[j] != c
  {
    if s == [] then -1
    else if s[|s| - 1] == c then |s| - 1
    else LastIndexOf(s[..|s| - 1], c)
  }

  /** The last `c` of `s + [c] + t` is the one before `t` when `t` holds none. */
  lemma {:induction false} LastIndexOfSuffix(s: string, c: char, t: string)
    requires c !in t
    ensures LastIndexOf(s + [c] + t, c) == |s|
    decreases |t|
  {
    var u := s + [c] + t;
    if t != [] {
      assert u[..|u| - 1] == s + [c] + t[..|t| - 1];
      LastIndexOfSuffix(s, c, t[..|t| - 1]);
    }
  }

  /** JavaScript's `s.replace(pattern, replacement)` with a string pattern: first occurrence only. */
  function ReplaceFirst(s: string, pattern: string, replacement: string): (r: string)
    requires pattern != []
    decreases |s|
  {
    if |s| < |pattern| then s
    else if s[..|pattern|] == pattern then replacement + s[|pattern|..]
    else [s[0]] + ReplaceFirst(s[1..], pattern, replacement)
  }

  /** `pattern` occurs in `s` at index `j`. */
  predicate OccursAt(s: string, pattern: string, j: nat) {
    j + |pattern| <= |s| && s[j..j + |pattern|] == pattern
  }

  lemma ReplaceFirstSkip(s: string, pattern: string, replacement: string)
    requires pattern != [] && |pattern| <= |s| && !OccursAt(s, pattern, 0)
    ensures ReplaceFirst(s, pattern, replacement) == [s[0]] + ReplaceFirst(s[1..], pattern, replacement)
  {
    assert s[..|pattern|] == s[0..0 + |pattern|];
  }

  lemma OccursAtTail(s: string, pattern: string, j: nat)
    requires s != []
    ensures OccursAt(s[1..], pattern, j) <==> OccursAt(s, pattern, j + 1)
  {
    if j + 1 + |pattern| <= |s| {
      assert s[1..][j..j + |pattern|] == s[j + 1..j + 1 + |pattern|];
    }
  }

  /** When the first occurrence of `pattern` starts at `k`, that occurrence is the one replaced. */
  lemma {:induction false} ReplaceFirstAt(s: string, pattern: string, replacement: string, k: nat)
    requires pattern != [] && OccursAt(s, pattern, k)
    requires forall j: nat :: j < k ==> !OccursAt(s, pattern, j)
    ensures ReplaceFirst(s, pattern, replacement) == s[..k] + replacement + s[k + |pattern|..]
    decreases k
  {
    if k == 0 {
      assert s[..|pattern|] == s[0..0 + |pattern|];
    } else {
      ReplaceFirstSkip(s, pattern, replacement);
      var t := s[1..];
      OccursAtTail(s, pattern, k - 1);
      forall j: nat | j < k - 1
        ensures !OccursAt(t, pattern, j)
      {
        OccursAtTail(s, pattern, j);
      }
      ReplaceFirstAt(t, pattern, replacement, k - 1);
      assert s[..k] == [s[0]] + t[..k - 1];
      assert t[k - 1 + |pattern|..] == s[k + |pattern|..];
    }
  }

  /** `sep.join(parts)` / `parts.join(sep)`. */
  function Join(parts: seq<string>, sep: string): (r: string)
    ensures parts == [] ==> r == []
    ensures |parts| == 1 ==> r == parts[0]
  {
    if parts == [] then []
    else if |parts| == 1 then parts[0]
    else parts[0] + sep + Join(parts[1..], sep)
  }

  // ------------------------------------------------------------- numbers

  function DigitChar(d: nat): (c: char)
    requires d < 10
    ensures '0' <= c <= '9'
  {
    ('0' as int + d) as char
  }

  function DigitValue(c: char): (d: nat)
    requires '0' <= c <= '9'
    ensures d < 10
  {
    c as int - '0' as int
  }

  predicate AllDigits(s: string) {
    forall i :: 0 <= i < |s| ==> '0' <= s[i] <= '9'
  }

  /** Decimal rendering of a natural number (`str(n)`, `${n}`). */
  function NatToString(n: nat): (s: string)
    ensures |s| >= 1 && AllDigits(s)
    ensures n < 10 <==> |s| == 1
    decreases n
  {
    if n < 10 then [DigitChar(n)] else NatToString(n / 10) + [DigitChar(n % 10)]
  }

  /** The value of a string of decimal digits. */
  function ParseNat(s: string): (n: nat)
    requires AllDigits(s)
    decreases |s|
  {
    if s == [] then 0 else ParseNat(s[..|s| - 1]) * 10 + DigitValue(s[|s| - 1])
  }

  /** Reading back a rendered number gives the number. */
  lemma {:induction false} ParseNatToString(n: nat)
    ensures ParseNat(NatToString(n)) == n
    decreases n
  {
    var s := NatToString(n);
    if n >= 10 {
      assert s[..|s| - 1] == NatToString(n / 10);
      ParseNatToString(n / 10);
    }
  }
}
