/**
 * The few operations of Go's `strings` package that the tool relies on, over
 * strings modelled as sequences of decoded characters (runes).
 */
module Text {

  /** Go's `unicode.IsSpace`: the white space `strings.TrimSpace` removes. */
  predicate IsSpace(c: char) {
    c == ' ' || c == '\t' || c == '\n' || c == '\U{0B}' || c == '\U{0C}' || c == '\r'
    || c == '\U{85}' || c == '\U{A0}' || c == '\U{1680}'
    || ('\U{2000}' <= c <= '\U{200A}')
    || c == '\U{2028}' || c == '\U{2029}' || c == '\U{202F}' || c == '\U{205F}' || c == '\U{3000}'
  }

  /** The class `\s` of Go's regular expressions: `[\t\n\f\r ]`. */
  predicate IsRegexSpace(c: char) {
    c == '\t' || c == '\n' || c == '\U{0C}' || c == '\r' || c == ' '
  }

  /** Space or tab, the set `leadingWhitespace` and `strings.TrimLeft(s, " \t")` work with. */
  predicate IsBlank(c: char) {
    c == ' ' || c == '\t'
  }

  predicate AllSpace(s: string) {
    forall i :: 0 <= i < |s| ==> IsSpace(s[i])
  }

  function TrimLeftSpace(s: string): (r: string)
    ensures |r| <= |s|
    ensures r == [] || !IsSpace(r[0])
  {
    if s != [] && IsSpace(s[0]) then TrimLeftSpace(s[1..]) else s
  }

  function TrimRightSpace(s: string): (r: string)
    ensures |r| <= |s|
    ensures r == [] || (!IsSpace(r[|r| - 1]) && r[0] == s[0])
    ensures s != [] && !IsSpace(s[0]) ==> r != []
  {
    if s != [] && IsSpace(s[|s| - 1]) then TrimRightSpace(s[..|s| - 1]) else s
  }

  /** `TrimLeftSpace` drops the leading white space and keeps the rest. */
  lemma {:induction false} TrimLeftSpaceSlice(s: string)
    ensures TrimLeftSpace(s) == s[|s| - |TrimLeftSpace(s)|..]
    ensures AllSpace(s[..|s| - |TrimLeftSpace(s)|])
  {
    if s != [] && IsSpace(s[0]) {
      TrimLeftSpaceSlice(s[1..]);
    }
  }

  /** `TrimRightSpace` drops the trailing white space and keeps the rest. */
  lemma {:induction false} TrimRightSpaceSlice(s: string)
    ensures TrimRightSpace(s) == s[..|TrimRightSpace(s)|]
    ensures AllSpace(s[|TrimRightSpace(s)|..])
  {
    if s != [] && IsSpace(s[|s| - 1]) {
      TrimRightSpaceSlice(s[..|s| - 1]);
    }
  }

  /** `strings.TrimSpace`. */
  function TrimSpace(s: string): (r: string)
    ensures r == [] || (!IsSpace(r[0]) && !IsSpace(r[|r| - 1]))
  {
    TrimRightSpace(TrimLeftSpace(s))
  }

  /** A slice of a slice is a slice. */
  lemma SliceOfSlice<T>(xs: seq<T>, lo: int, hi: int, i: int, j: int)
    requires 0 <= lo <= hi <= |xs| && 0 <= i <= j <= hi - lo
    ensures xs[lo..hi][i..j] == xs[lo + i..lo + j]
  {
    var u, v := xs[lo..hi][i..j], xs[lo + i..lo + j];
    assert |u| == |v|;
    forall k | 0 <= k < |u| ensures u[k] == v[k] {
    }
  }

  /** Dropping the first `k` elements of a slice leaves a slice. */
  lemma DropOfSlice<T>(xs: seq<T>, lo: int, hi: int, k: int)
    requires 0 <= lo <= hi <= |xs| && 0 <= k <= hi - lo
    ensures xs[lo..hi][k..] == xs[lo + k..hi]
  {
    var u, v := xs[lo..hi][k..], xs[lo + k..hi];
    assert |u| == |v|;
    forall m | 0 <= m < |u| ensures u[m] == v[m] {
    }
  }

  /** Dropping the first element of `a + b`, with `a` non-empty, drops it from `a`. */
  lemma DropFirstOfAppend<T>(a: seq<T>, b: seq<T>)
    requires a != []
    ensures (a + b)[1..] == a[1..] + b
  {
    var u, v := (a + b)[1..], a[1..] + b;
    assert |u| == |v|;
    forall m | 0 <= m < |u| ensures u[m] == v[m] {
    }
  }

  /** The last element of `a + b`, with `b` non-empty, is the last of `b`. */
  lemma LastOfAppend<T>(a: seq<T>, b: seq<T>)
    requires b != []
    ensures (a + b)[|a + b| - 1] == b[|b| - 1]
  {
  }

  lemma TrimSpaceOfTrimmed(s: string)
    requires s == [] || (!IsSpace(s[0]) && !IsSpace(s[|s| - 1]))
    ensures TrimSpace(s) == s
  {
  }

  lemma {:induction false} TrimLeftSpaceAt(s: string, a: int)
    requires 0 <= a < |s| && !IsSpace(s[a])
    requires forall i :: 0 <= i < a ==> IsSpace(s[i])
    ensures TrimLeftSpace(s) == s[a..]
  {
    if a > 0 {
      TrimLeftSpaceAt(s[1..], a - 1);
      assert s[1..][a - 1..] == s[a..];
    }
  }

  /** The first character `TrimSpace` keeps is the first non-space one. */
  lemma TrimSpaceFirst(s: string, a: int)
    requires 0 <= a < |s| && !IsSpace(s[a])
    requires forall i :: 0 <= i < a ==> IsSpace(s[i])
    ensures TrimSpace(s) != [] && TrimSpace(s)[0] == s[a]
  {
    TrimLeftSpaceAt(s, a);
  }

  /** Trimming a line indented by spaces and tabs gives back its text. */
  lemma TrimSpacePadded(pad: string, t: string)
    requires forall i :: 0 <= i < |pad| ==> IsBlank(pad[i])
    requires t != [] && !IsSpace(t[0]) && !IsSpace(t[|t| - 1])
    ensures TrimSpace(pad + t) == t
  {
    var s := pad + t;
    TrimLeftSpaceAt(s, |pad|);
    assert s[|pad|..] == t;
    TrimSpaceOfTrimmed(t);
  }

  /** `strings.TrimLeft(s, " \t")`. */
  function TrimLeftBlanks(s: string): (r: string)
    ensures |r| <= |s| && r == s[|s| - |r|..]
    ensures forall i :: 0 <= i < |s| - |r| ==> IsBlank(s[i])
    ensures r == [] || !IsBlank(r[0])
  {
    if s != [] && IsBlank(s[0]) then TrimLeftBlanks(s[1..]) else s
  }

  lemma {:induction false} TrimLeftBlanksAt(s: string, a: int)
    requires 0 <= a < |s| && !IsBlank(s[a])
    requires forall i :: 0 <= i < a ==> IsBlank(s[i])
    ensures TrimLeftBlanks(s) == s[a..]
  {
    if a > 0 {
      TrimLeftBlanksAt(s[1..], a - 1);
      assert s[1..][a - 1..] == s[a..];
    }
  }

  predicate HasPrefix(s: string, p: string) {
    |p| <= |s| && s[..|p|] == p
  }

  predicate HasSuffix(s: string, p: string) {
    |p| <= |s| && s[|s| - |p|..] == p
  }

  function TrimPrefix(s: string, p: string): string {
    if HasPrefix(s, p) then s[|p|..] else s
  }

  function TrimSuffix(s: string, p: string): string {
    if HasSuffix(s, p) then s[..|s| - |p|] else s
  }

  /** `strings.Contains`: `n` occurs somewhere in `s`. */
  predicate Contains(s: string, n: string)
    decreases |s|
  {
    HasPrefix(s, n) || (s != [] && Contains(s[1..], n))
  }

  /** `n` occurs in `s` at position `k`. */
  predicate OccursAt(s: string, n: string, k: int) {
    0 <= k <= |s| - |n| && s[k..k + |n|] == n
  }

  lemma {:induction false} ContainsAt(s: string, n: string)
    ensures Contains(s, n) <==> exists k :: OccursAt(s, n, k)
    decreases |s|
  {
    if s == [] {
      if Contains(s, n) {
        assert OccursAt(s, n, 0);
      }
      if exists k :: OccursAt(s, n, k) {
        var k :| OccursAt(s, n, k);
        assert n == [];
        assert HasPrefix(s, n);
      }
    } else {
      ContainsAt(s[1..], n);
      if HasPrefix(s, n) {
        assert OccursAt(s, n, 0);
      } else if Contains(s[1..], n) {
        var k :| OccursAt(s[1..], n, k);
        assert s[k + 1..k + 1 + |n|] == s[1..][k..k + |n|];
        assert OccursAt(s, n, k + 1);
      }
      if !HasPrefix(s, n) && exists k :: OccursAt(s, n, k) {
        var k :| OccursAt(s, n, k);
        assert k != 0;
        assert s[1..][k - 1..k - 1 + |n|] == s[k..k + |n|];
        assert OccursAt(s[1..], n, k - 1);
      }
    }
  }

  lemma ContainsOfPart(a: string, n: string, b: string)
    requires Contains(n, a)
    ensures Contains(b + n, a) && Contains(n + b, a)
  {
    ContainsAt(n, a);
    var k :| OccursAt(n, a, k);
    assert (b + n)[|b| + k..|b| + k + |a|] == n[k..k + |a|];
    assert OccursAt(b + n, a, |b| + k);
    assert (n + b)[k..k + |a|] == n[k..k + |a|];
    assert OccursAt(n + b, a, k);
    ContainsAt(b + n, a);
    ContainsAt(n + b, a);
  }

  /** `strings.IndexByte`/`IndexRune`: the first position of `c`, or -1. */
  function IndexOf(s: string, c: char): (k: int)
    ensures -1 <= k < |s|
    ensures k == -1 <==> c !in s
    ensures k >= 0 ==> s[k] == c && c !in s[..k]
  {
    if s == [] then -1
    else if s[0] == c then 0
    else var k := IndexOf(s[1..], c); if k < 0 then -1 else k + 1
  }

  /** `strings.Count` for a one-character needle. */
  function Count(s: string, c: char): nat {
    if s == [] then 0 else (if s[0] == c then 1 else 0) + Count(s[1..], c)
  }

  lemma {:induction false} CountAppend(a: string, b: string, c: char)
    ensures Count(a + b, c) == Count(a, c) + Count(b, c)
  {
    if a == [] {
      assert a + b == b;
    } else {
      assert (a + b)[1..] == a[1..] + b;
      assert (a + b)[0] == a[0];
      CountAppend(a[1..], b, c);
    }
  }

  lemma CountAbsent(s: string, c: char)
    requires c !in s
    ensures Count(s, c) == 0
  {
  }

  function LowerChar(c: char): char {
    if 'A' <= c <= 'Z' then (c as int + 32) as char else c
  }

  /** `strings.ToLower`, restricted to ASCII letters. */
  function ToLower(s: string): (r: string)
    ensures |r| == |s| && forall i :: 0 <= i < |s| ==> r[i] == LowerChar(s[i])
  {
    if s == [] then [] else [LowerChar(s[0])] + ToLower(s[1..])
  }

  /** Lower-casing is idempotent. */
  lemma {:induction false} ToLowerIdempotent(s: string)
    ensures ToLower(ToLower(s)) == ToLower(s)
  {
    var l := ToLower(s);
    assert forall i :: 0 <= i < |l| ==> LowerChar(l[i]) == l[i];
  }

  /** `strings.Split(s, sep)` for a one-character separator: never empty, no piece holds `sep`. */
  function Split(s: string, sep: char): (parts: seq<string>)
    ensures |parts| >= 1
    ensures forall i :: 0 <= i < |parts| ==> sep !in parts[i]
    decreases |s|
  {
    var k := IndexOf(s, sep);
    if k < 0 then [s] else [s[..k]] + Split(s[k + 1..], sep)
  }

  /** `strings.Join`. */
  function Join(parts: seq<string>, sep: string): string
  {
    if |parts| == 0 then ""
    else if |parts| == 1 then parts[0]
    else parts[0] + sep + Join(parts[1..], sep)
  }

  lemma JoinCons(a: string, rest: seq<string>, sep: string)
    requires |rest| >= 1
    ensures Join([a] + rest, sep) == a + sep + Join(rest, sep)
  {
    assert ([a] + rest)[1..] == rest;
  }

  lemma {:induction false} JoinSplit(s: string, sep: char)
    ensures Join(Split(s, sep), [sep]) == s
    decreases |s|
  {
    var k := IndexOf(s, sep);
    if k >= 0 {
      var b := s[k + 1..];
      var rest := Split(b, sep);
      assert Split(s, sep) == [s[..k]] + rest;
      JoinSplit(b, sep);
      JoinCons(s[..k], rest, [sep]);
      CutAt(s, k);
    }
  }

  /** A text is what comes before position `k`, the character there, and what follows. */
  lemma CutAt(s: string, k: int)
    requires 0 <= k < |s|
    ensures s == s[..k] + [s[k]] + s[k + 1..]
  {
  }

  lemma {:induction false} SplitJoin(parts: seq<string>, sep: char)
    requires |parts| >= 1
    requires forall i :: 0 <= i < |parts| ==> sep !in parts[i]
    ensures Split(Join(parts, [sep]), sep) == parts
  {
    if |parts| > 1 {
      var rest := Join(parts[1..], [sep]);
      var s := parts[0] + [sep] + rest;
      assert IndexOf(s, sep) == |parts[0]| by {
        assert s[|parts[0]|] == sep;
        assert s[..|parts[0]|] == parts[0];
      }
      assert s[|parts[0]| + 1..] == rest;
      SplitJoin(parts[1..], sep);
    }
  }

  /** The first separator of `a + [sep] + b` is the first of `a`, or the one added. */
  lemma IndexOfConcat(a: string, b: string, sep: char)
    ensures IndexOf(a + [sep] + b, sep) == if sep in a then IndexOf(a, sep) else |a|
  {
    var s := a + [sep] + b;
    var k := IndexOf(a, sep);
    if k < 0 {
      assert s[|a|] == sep && s[..|a|] == a;
    } else {
      assert s[k] == sep && s[..k] == a[..k];
    }
  }

  /** Splitting at a separator between two texts splits each of them. */
  lemma {:induction false} SplitConcat(a: string, b: string, sep: char)
    ensures Split(a + [sep] + b, sep) == Split(a, sep) + Split(b, sep)
    decreases |a|
  {
    var s := a + [sep] + b;
    IndexOfConcat(a, b, sep);
    var k := IndexOf(a, sep);
    var q := Split(b, sep);
    if k < 0 {
      AroundSeparator(a, sep, b);
      assert Split(s, sep) == [a] + q;
      assert Split(a, sep) == [a];
    } else {
      var a' := a[k + 1..];
      assert s[..k] == a[..k];
      assert s[k + 1..] == a' + [sep] + b;
      SplitConcat(a', b, sep);
      var p := Split(a', sep);
      SplitAt(s, sep);
      SplitAt(a, sep);
      AppendAssoc([a[..k]], p, q);
    }
  }

  /** One step of `Split` at the first separator. */
  lemma SplitAt(s: string, sep: char)
    requires IndexOf(s, sep) >= 0
    ensures Split(s, sep) == [s[..IndexOf(s, sep)]] + Split(s[IndexOf(s, sep) + 1..], sep)
  {
  }

  lemma AppendAssoc<T>(x: seq<T>, y: seq<T>, z: seq<T>)
    ensures x + (y + z) == (x + y) + z
  {
  }

  /** The two sides of a separator placed between `a` and `b`. */
  lemma AroundSeparator(a: string, sep: char, b: string)
    ensures (a + [sep] + b)[..|a|] == a && (a + [sep] + b)[|a| + 1..] == b
    ensures (a + [sep] + b)[|a|] == sep
  {
  }

  /** The pieces of a text hold only its characters. */
  lemma {:induction false} SplitNoChar(s: string, sep: char, c: char)
    requires c !in s
    ensures forall i :: 0 <= i < |Split(s, sep)| ==> c !in Split(s, sep)[i]
    decreases |s|
  {
    var k := IndexOf(s, sep);
    if k >= 0 {
      var rest := s[k + 1..];
      NotInSlice(s, c, 0, k);
      NotInSlice(s, c, k + 1, |s|);
      SplitNoChar(rest, sep, c);
      assert Split(s, sep) == [s[..k]] + Split(rest, sep);
    }
  }

  /** A character absent from a text is absent from each of its slices. */
  lemma NotInSlice(s: string, c: char, i: int, j: int)
    requires c !in s && 0 <= i <= j <= |s|
    ensures c !in s[i..j]
  {
    forall m | 0 <= m < j - i ensures s[i..j][m] != c {
      assert s[i..j][m] == s[i + m];
    }
  }

  lemma JoinAppend(a: seq<string>, b: seq<string>, sep: string)
    requires |a| >= 1 && |b| >= 1
    ensures Join(a + b, sep) == Join(a, sep) + sep + Join(b, sep)
  {
    if |a| > 1 {
      assert (a + b)[1..] == a[1..] + b;
      JoinAppend(a[1..], b, sep);
    } else {
      assert (a + b)[1..] == b;
    }
  }

  lemma JoinNoChar(parts: seq<string>, c: char)
    requires forall i :: 0 <= i < |parts| ==> c !in parts[i]
    requires c != '\n'
    ensures c !in Join(parts, "\n")
  {
    if |parts| > 1 {
      JoinNoChar(parts[1..], c);
    }
  }

  function DigitChar(d: int): char
    requires 0 <= d < 10
  {
    ('0' as int + d) as char
  }

  /** The decimal digits of `n`, as `%d` prints them. */
  function NatToString(n: nat): (r: string)
    decreases n
  {
    if n < 10 then [DigitChar(n)] else NatToString(n / 10) + [DigitChar(n % 10)]
  }

  predicate IsDigit(c: char) {
    '0' <= c <= '9'
  }

  /** `%d` of an integer: a minus sign for negatives, then the digits. */
  function IntToString(i: int): string {
    if i < 0 then "-" + NatToString(-i) else NatToString(i)
  }

  lemma {:induction false} NatToStringDigits(n: nat)
    ensures NatToString(n) != []
    ensures forall i :: 0 <= i < |NatToString(n)| ==> IsDigit(NatToString(n)[i])
    decreases n
  {
    if n >= 10 {
      NatToStringDigits(n / 10);
    }
  }

  /** `strings.ReplaceAll(s, "\r\n", "\n")`: a single left-to-right pass. */
  function ReplaceCRLF(s: string): string
    decreases |s|
  {
    if |s| >= 2 && s[0] == '\r' && s[1] == '\n' then "\n" + ReplaceCRLF(s[2..])
    else if s == [] then []
    else [s[0]] + ReplaceCRLF(s[1..])
  }

  lemma ReplaceCRLFWithoutCR(s: string)
    requires '\r' !in s
    ensures ReplaceCRLF(s) == s
  {
  }
}
