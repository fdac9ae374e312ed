/**
 * The default-site editor (internal/nginx/default_site.go): it points SWAG's
 * catch-all nginx site at an upstream container, or back at the static
 * homepage, by rewriting `server_name` and the body of `location /` inside the
 * `listen 443 … default_server` block, line by line.
 *
 * This module holds the line-level pieces: the comment test, the `server_name`
 * rewrite and the `location /` body rewrite.
 */
module DefaultSite {
  import opened Wrappers
  import opened Text
  import opened BlockLocator

  /** `HomepageConfig`. */
  datatype HomepageConfig = HomepageConfig(
    domain: string,
    upstreamApp: string,
    upstreamPort: int,
    upstreamProto: string,
    keepServerNameUnderscore: bool)

  /** A line that is neither blank nor a `#` comment once trimmed. */
  predicate Significant(line: string) {
    var s := TrimSpace(line);
    s != "" && !HasPrefix(s, "#")
  }

  // ---------------------------------------------------------------------------
  // Line splitting

  /**
   * `splitLinesPreserve`: CRLF becomes LF, one final LF is dropped, and the rest
   * is cut at every LF; the empty text is one empty line.
   */
  function SplitLinesPreserve(s: string): (r: seq<string>)
    ensures |r| >= 1
    ensures forall i :: 0 <= i < |r| ==> '\n' !in r[i]
  {
    var n := ReplaceCRLF(s);
    if n == "" then [""] else Split(TrimSuffix(n, "\n"), '\n')
  }

  /** The text `updateDefaultSiteConf` writes back for `lines`. */
  function Render(lines: seq<string>, trailing: bool): string {
    Join(lines, "\n") + (if trailing then "\n" else "")
  }

  /** Splitting and re-rendering gives back the CRLF-normalised text. */
  lemma SplitRenderRoundTrip(s: string)
    ensures Render(SplitLinesPreserve(s), HasSuffix(ReplaceCRLF(s), "\n")) == ReplaceCRLF(s)
  {
    var n := ReplaceCRLF(s);
    if n != "" {
      var t := TrimSuffix(n, "\n");
      JoinSplit(t, '\n');
      if HasSuffix(n, "\n") {
        assert n == t + "\n";
      }
    }
  }

  /**
   * Rendering and splitting again gives back the lines and the final-newline
   * flag, as long as the last line is not an empty one that the rendering would
   * read back as a final newline.
   */
  lemma RenderSplitRoundTrip(lines: seq<string>, trailing: bool)
    requires |lines| >= 1
    requires forall i :: 0 <= i < |lines| ==> '\n' !in lines[i] && '\r' !in lines[i]
    requires !trailing && |lines| > 1 ==> lines[|lines| - 1] != ""
    ensures SplitLinesPreserve(Render(lines, trailing)) == lines
    ensures HasSuffix(ReplaceCRLF(Render(lines, trailing)), "\n") == trailing
  {
    var out := Render(lines, trailing);
    JoinNoChar(lines, '\r');
    ReplaceCRLFWithoutCR(out);
    SplitJoin(lines, '\n');
    if !trailing {
      assert out == Join(lines, "\n");
      RenderWithoutNewline(lines);
      assert TrimSuffix(out, "\n") == out;
    }
  }

  lemma RenderWithoutNewline(lines: seq<string>)
    requires |lines| >= 1
    requires forall i :: 0 <= i < |lines| ==> '\n' !in lines[i]
    requires |lines| > 1 ==> lines[|lines| - 1] != ""
    ensures !HasSuffix(Join(lines, "\n"), "\n")
    ensures Join(lines, "\n") == "" ==> lines == [""]
  {
    var last := lines[|lines| - 1];
    JoinEndsWithLast(lines, "\n");
    if last != "" {
      assert last[|last| - 1] in last;
    }
  }

  lemma {:induction false} JoinEndsWithLast(parts: seq<string>, sep: string)
    requires |parts| >= 1
    ensures HasSuffix(Join(parts, sep), parts[|parts| - 1])
  {
    if |parts| > 1 {
      JoinEndsWithLast(parts[1..], sep);
    }
  }

  // ---------------------------------------------------------------------------
  // `server_name` rewriting

  /** The end of the run of `\s` characters that starts at `i`. */
  function SpaceEnd(s: string, i: nat): (n: nat)
    requires i <= |s|
    ensures i <= n <= |s| && (n == |s| || !IsRegexSpace(s[n]))
    ensures forall j :: i <= j < n ==> IsRegexSpace(s[j])
    decreases |s| - i
  {
    if i < |s| && IsRegexSpace(s[i]) then SpaceEnd(s, i + 1) else i
  }

  /** A white-space run is determined by where it stops. */
  lemma SpaceEndAt(s: string, i: nat, n: nat)
    requires i <= n <= |s| && (n == |s| || !IsRegexSpace(s[n]))
    requires forall j :: i <= j < n ==> IsRegexSpace(s[j])
    ensures SpaceEnd(s, i) == n
  {
  }

  /** The index of the first `;` at or after `i`, or -1. */
  function SemicolonFrom(s: string, i: nat): (k: int)
    requires i <= |s|
    ensures k == -1 || (i <= k < |s| && s[k] == ';')
    ensures forall j :: i <= j < |s| && (k == -1 || j < k) ==> s[j] != ';'
    decreases |s| - i
  {
    if i == |s| then -1 else if s[i] == ';' then i else SemicolonFrom(s, i + 1)
  }

  /** A first `;` is determined by where it is. */
  lemma SemicolonAt(s: string, i: nat, k: nat)
    requires i <= k < |s| && s[k] == ';'
    requires forall j :: i <= j < k ==> s[j] != ';'
    ensures SemicolonFrom(s, i) == k
  {
  }

  /** No newline from `i` on: what `.*$` needs without the `(?m)` flag. */
  predicate NoNewlineFrom(s: string, i: nat) {
    forall j :: i <= j < |s| ==> s[j] != '\n'
  }

  /** The literal `server_name` at `a`. */
  predicate KeywordAt(s: string, a: nat) {
    a + 11 <= |s| && s[a..a + 11] == "server_name"
  }

  /** The three groups of `^(\s*server_name\s+)([^;]+)(;.*)$`. */
  datatype ServerNameParts = ServerNameParts(head: string, value: string, rest: string)

  /**
   * The first group: `\s*server_name\s+`. Its leading run is the longest one,
   * as no part of `server_name` is white space.
   */
  predicate HeadShape(h: string) {
    var a := SpaceEnd(h, 0);
    KeywordAt(h, a) && a + 11 < |h| && forall i :: a + 11 <= i < |h| ==> IsRegexSpace(h[i])
  }

  /** The second group: `[^;]+`. */
  predicate ValueShape(v: string) {
    v != [] && ';' !in v
  }

  /** The third group: `;.*`, where `.` does not match a newline. */
  predicate RestShape(r: string) {
    r != [] && r[0] == ';' && '\n' !in r
  }

  /**
   * `^(\s*server_name\s+)([^;]+)(;.*)$` with Go's leftmost-first submatches:
   * both white-space runs are taken whole, and the value runs to the first `;`;
   * only when that leaves the value empty does the second run give back its last
   * character to it.
   */
  function ServerNameMatch(line: string): Option<ServerNameParts> {
    var a := SpaceEnd(line, 0);
    if !KeywordAt(line, a) then None
    else
      var b := a + 11;
      var c := SpaceEnd(line, b);
      var e := SemicolonFrom(line, c);
      if c == b || e < 0 || !NoNewlineFrom(line, e) then None
      else if e > c then Some(ServerNameParts(line[..c], line[c..e], line[e..]))
      else if c - b >= 2 then Some(ServerNameParts(line[..c - 1], line[c - 1..c], line[c..]))
      else None
  }

  /** `p` splits `line` into the regex's three groups. */
  predicate PartsOf(line: string, p: ServerNameParts) {
    line == p.head + p.value + p.rest && HeadShape(p.head) && ValueShape(p.value) && RestShape(p.rest)
  }

  /** A match splits the line into its three groups, each of the regex's shape. */
  lemma ServerNameMatchParts(line: string)
    ensures ServerNameMatch(line).Some? ==> PartsOf(line, ServerNameMatch(line).value)
  {
    if ServerNameMatch(line).Some? {
      var a := SpaceEnd(line, 0);
      var b := a + 11;
      var c := SpaceEnd(line, b);
      var e := SemicolonFrom(line, c);
      var hl := if e > c then c else c - 1;
      MatchedHead(line, a, hl);
      MatchedTail(line, b, c, e, hl);
      Thirds(line, hl, e);
    }
  }

  lemma Thirds(s: string, i: int, j: int)
    requires 0 <= i <= j <= |s|
    ensures s == s[..i] + s[i..j] + s[j..]
  {
  }

  lemma MatchedHead(line: string, a: nat, hl: nat)
    requires a == SpaceEnd(line, 0) && KeywordAt(line, a)
    requires a + 11 < hl <= SpaceEnd(line, a + 11)
    ensures HeadShape(line[..hl])
  {
    var h := line[..hl];
    assert h[a] == line[a..a + 11][0];
    SpaceEndAt(h, 0, a);
    assert h[a..a + 11] == line[a..a + 11];
  }

  lemma MatchedTail(line: string, b: nat, c: nat, e: int, hl: nat)
    requires b <= c <= |line| && c == SpaceEnd(line, b)
    requires e == SemicolonFrom(line, c) && e >= 0 && NoNewlineFrom(line, e)
    requires (e > c && hl == c) || (e == c && b < c && hl == c - 1)
    ensures ValueShape(line[hl..e]) && RestShape(line[e..])
  {
    var v := line[hl..e];
    forall t | 0 <= t < |v| ensures v[t] != ';' {
      assert v[t] == line[hl + t];
    }
    var r := line[e..];
    forall t | 0 <= t < |r| ensures r[t] != '\n' {
      assert r[t] == line[e + t];
    }
  }

  /**
   * Any split of a line into the regex's three groups is a match; when the
   * value does not start with white space, the match has exactly those groups.
   */
  lemma ServerNameMatchOfParts(h: string, v: string, r: string)
    requires HeadShape(h) && ValueShape(v) && RestShape(r)
    ensures ServerNameMatch(h + v + r).Some?
    ensures !IsRegexSpace(v[0]) ==> ServerNameMatch(h + v + r) == Some(ServerNameParts(h, v, r))
  {
    var line := h + v + r;
    var a := SpaceEnd(h, 0);
    var b := a + 11;
    var E := |h| + |v|;
    assert forall j :: 0 <= j < |h| ==> line[j] == h[j];
    assert h[a] == h[a..a + 11][0];
    SpaceEndAt(line, 0, a);
    assert line[a..a + 11] == h[a..a + 11];
    var c := SpaceEnd(line, b);
    assert |h| <= c <= E by {
      assert forall j :: b <= j < |h| ==> IsRegexSpace(line[j]);
      assert line[E] == r[0];
    }
    forall j | c <= j < E ensures line[j] != ';' {
      assert line[j] == v[j - |h|];
    }
    SemicolonAt(line, c, E);
    assert line[E..] == r;
    forall j | E <= j < |line| ensures line[j] != '\n' {
      assert line[j] == r[j - E];
    }
    if !IsRegexSpace(v[0]) {
      assert line[|h|] == v[0];
      assert c == |h|;
      assert line[..c] == h;
      assert line[c..E] == v;
    }
  }

  /** The `server_name` line `setServerName` rewrites: not blank, not a comment, and matching. */
  predicate Candidate(line: string) {
    Significant(line) && HasPrefix(TrimLeftBlanks(line), "server_name") && ServerNameMatch(line).Some?
  }

  /** `f` of every line (recursive, so that a line is examined only where needed). */
  function LineFlags(lines: seq<string>, f: string -> bool): (r: seq<bool>)
    ensures |r| == |lines|
  {
    if lines == [] then [] else [f(lines[0])] + LineFlags(lines[1..], f)
  }

  lemma {:induction false} LineFlagsAt(lines: seq<string>, f: string -> bool, i: int)
    requires 0 <= i < |lines|
    ensures LineFlags(lines, f)[i] == f(lines[i])
  {
    if i > 0 {
      LineFlagsAt(lines[1..], f, i - 1);
    }
  }

  /** Replacing one line changes only that line's flag. */
  lemma {:induction false} LineFlagsUpdate(lines: seq<string>, f: string -> bool, k: int, x: string)
    requires 0 <= k < |lines|
    ensures LineFlags(lines[k := x], f) == LineFlags(lines, f)[k := f(x)]
  {
    if k == 0 {
      assert lines[k := x] == [x] + lines[1..];
    } else {
      LineFlagsUpdate(lines[1..], f, k - 1, x);
      assert lines[k := x] == [lines[0]] + lines[1..][k - 1 := x];
    }
  }

  /** The first set flag among `i..hi`, or -1. */
  function FirstTrue(flags: seq<bool>, i: int, hi: int): (k: int)
    requires 0 <= i && hi < |flags|
    ensures k == -1 || (i <= k <= hi && flags[k])
    ensures forall j :: i <= j <= hi && (k == -1 || j < k) ==> !flags[j]
    decreases hi - i
  {
    if i > hi then -1
    else if flags[i] then i
    else FirstTrue(flags, i + 1, hi)
  }

  function Rewrite(line: string, name: string): string
    requires ServerNameMatch(line).Some?
  {
    var p := ServerNameMatch(line).value;
    p.head + name + p.rest
  }

  /** `setServerName` on block `b`. */
  function ServerNameSpec(lines: seq<string>, b: Block, name: string): (r: seq<string>)
    requires 0 <= b.start && b.end < |lines|
    ensures |r| == |lines|
  {
    var k := FirstTrue(LineFlags(lines, Candidate), b.start, b.end);
    if k < 0 then lines else
      LineFlagsAt(lines, Candidate, k);
      lines[k := Rewrite(lines[k], name)]
  }

  /**
   * `setServerName`: in the block's lines, the first non-blank, non-comment line
   * that starts (after spaces and tabs) with `server_name` and matches the regex
   * gets `name` in place of its value; nothing else changes.
   */
  method SetServerName(lines: array<string>, b: Block, name: string)
    requires 0 <= b.start && b.end < lines.Length
    modifies lines
    ensures lines[..] == ServerNameSpec(old(lines[..]), b, name)
  {
    ghost var orig := lines[..];
    ghost var flags := LineFlags(orig, Candidate);
    var i := b.start;
    while i <= b.end
      invariant b.start <= i && (i <= b.end + 1 || b.start > b.end)
      invariant lines[..] == orig
      invariant FirstTrue(flags, b.start, b.end) == FirstTrue(flags, i, b.end)
    {
      LineFlagsAt(orig, Candidate, i);
      var trim := TrimSpace(lines[i]);
      if trim == "" || HasPrefix(trim, "#") {
        i := i + 1;
        continue;
      }
      if !HasPrefix(TrimLeftBlanks(lines[i]), "server_name") {
        i := i + 1;
        continue;
      }
      var m := ServerNameMatch(lines[i]);
      if m.Some? {
        lines[i] := m.value.head + name + m.value.rest;
        return;
      }
      i := i + 1;
    }
  }

  /**
   * What `setServerName` does to the block: only its first candidate line
   * changes; that line splits into `\s*server_name\s+`, a value up to the first
   * `;`, and the rest, and only the value is replaced by `name`.
   */
  lemma {:induction false} ServerNameSpecEffect(lines: seq<string>, b: Block, name: string)
    requires 0 <= b.start && b.end < |lines|
    ensures var r := ServerNameSpec(lines, b, name);
            var k := FirstTrue(LineFlags(lines, Candidate), b.start, b.end);
            && (k == -1 || (b.start <= k <= b.end && Candidate(lines[k])))
            && (forall j :: b.start <= j <= b.end && (k == -1 || j < k) ==> !Candidate(lines[j]))
            && (forall i :: 0 <= i < |lines| && i != k ==> r[i] == lines[i])
            && (k >= 0 ==>
                  exists h, v, rest ::
                    && lines[k] == h + v + rest && r[k] == h + name + rest
                    && HeadShape(h) && ValueShape(v) && RestShape(rest))
  {
    var k := FirstTrue(LineFlags(lines, Candidate), b.start, b.end);
    forall j | b.start <= j <= b.end ensures LineFlags(lines, Candidate)[j] == Candidate(lines[j]) {
      LineFlagsAt(lines, Candidate, j);
    }
    if k >= 0 {
      ServerNameMatchParts(lines[k]);
      var p := ServerNameMatch(lines[k]).value;
      assert PartsOf(lines[k], p);
    }
  }

  /** The white space before `server_name` in a head is only spaces and tabs. */
  predicate BlankLead(h: string) {
    forall i :: 0 <= i < SpaceEnd(h, 0) ==> IsBlank(h[i])
  }

  /** The head of a candidate's match has a blank lead, as the candidate passed the `TrimLeft` test. */
  lemma {:induction false} CandidateHead(line: string)
    requires Candidate(line)
    ensures PartsOf(line, ServerNameMatch(line).value)
    ensures BlankLead(ServerNameMatch(line).value.head)
  {
    ServerNameMatchParts(line);
    var h := ServerNameMatch(line).value.head;
    var n := BlankLeadOfLine(line);
    HeadLead(line, h, n);
  }

  /** A line whose blanks are followed by `server_name` has its white-space run made of those blanks. */
  lemma {:induction false} BlankLeadOfLine(line: string) returns (n: nat)
    requires HasPrefix(TrimLeftBlanks(line), "server_name")
    ensures n == SpaceEnd(line, 0) && n < |line|
    ensures forall i :: 0 <= i < n ==> IsBlank(line[i])
  {
    var t := TrimLeftBlanks(line);
    n := |line| - |t|;
    assert t[..11] == "server_name";
    assert line[n] == t[0];
    SpaceEndAt(line, 0, n);
  }

  /** A head that starts a line shares the line's white-space run. */
  lemma {:induction false} HeadLead(line: string, h: string, n: nat)
    requires HeadShape(h) && |h| <= |line| && line[..|h|] == h
    requires n == SpaceEnd(line, 0) && forall i :: 0 <= i < n ==> IsBlank(line[i])
    ensures BlankLead(h)
  {
    var a := SpaceEnd(h, 0);
    assert forall j :: 0 <= j < |h| ==> h[j] == line[j];
    assert h[a] == h[a..a + 11][0];
    SpaceEndAt(line, 0, a);
  }

  /** A line whose first non-space character is `c`, not `#`, is significant. */
  lemma {:induction false} SignificantAt(line: string, a: nat)
    requires a < |line| && !IsSpace(line[a]) && line[a] != '#'
    requires forall i :: 0 <= i < a ==> IsSpace(line[i])
    ensures Significant(line)
  {
    TrimSpaceFirst(line, a);
  }

  /** A line with blanks up to `server_name` passes the `TrimLeft` test. */
  lemma {:induction false} KeywordAfterBlanks(line: string, a: nat)
    requires KeywordAt(line, a) && forall i :: 0 <= i < a ==> IsBlank(line[i])
    ensures HasPrefix(TrimLeftBlanks(line), "server_name")
  {
    assert line[a] == line[a..a + 11][0];
    TrimLeftBlanksAt(line, a);
    assert line[a..][..11] == line[a..a + 11];
  }

  /**
   * A rewritten line is a candidate again, and its match gives back the same
   * head, value and rest, provided the new value does not start with white space.
   */
  lemma {:induction false} RewrittenIsCandidate(h: string, v: string, r: string)
    requires HeadShape(h) && BlankLead(h) && ValueShape(v) && RestShape(r) && !IsRegexSpace(v[0])
    ensures Candidate(h + v + r)
    ensures ServerNameMatch(h + v + r) == Some(ServerNameParts(h, v, r))
  {
    ServerNameMatchOfParts(h, v, r);
    var line := h + v + r;
    var a := SpaceEnd(h, 0);
    assert forall j :: 0 <= j < |h| ==> line[j] == h[j];
    assert line[a..a + 11] == h[a..a + 11];
    assert line[a] == h[a..a + 11][0];
    SignificantAt(line, a);
    KeywordAfterBlanks(line, a);
  }

  /** The first set flag, found by where it is. */
  lemma {:induction false} FirstTrueAt(flags: seq<bool>, i: int, hi: int, k: int)
    requires 0 <= i <= k <= hi < |flags| && flags[k]
    requires forall j :: i <= j < k ==> !flags[j]
    ensures FirstTrue(flags, i, hi) == k
  {
  }

  /** A line that keeps its flag when replaced stays the first flagged one. */
  lemma {:induction false} FirstTrueUpdate(lines: seq<string>, f: string -> bool, i: int, hi: int, k: int, x: string)
    requires 0 <= i && hi < |lines|
    requires k == FirstTrue(LineFlags(lines, f), i, hi) && k >= 0 && f(x)
    ensures FirstTrue(LineFlags(lines[k := x], f), i, hi) == k
  {
    LineFlagsUpdate(lines, f, k, x);
    FirstTrueAt(LineFlags(lines[k := x], f), i, hi, k);
  }

  /**
   * Setting a name and then another is setting the second alone, provided the
   * first does not start with white space: the rewritten line stays the first
   * candidate and splits as before.
   */
  lemma {:induction false} ServerNameSpecReapply(lines: seq<string>, b: Block, n1: string, n2: string)
    requires 0 <= b.start && b.end < |lines|
    requires ValueShape(n1) && !IsRegexSpace(n1[0])
    ensures ServerNameSpec(ServerNameSpec(lines, b, n1), b, n2) == ServerNameSpec(lines, b, n2)
  {
    var k := FirstTrue(LineFlags(lines, Candidate), b.start, b.end);
    if k >= 0 {
      var r, p := RewrittenSpec(lines, b, n1, k);
      var r2, p2 := RewrittenSpec(lines, b, n2, k);
      RewrittenThen(lines, b, n1, n2, k, p, r);
    }
  }

  /** Setting the same name twice is the same as setting it once. */
  lemma ServerNameSpecIdempotent(lines: seq<string>, b: Block, name: string)
    requires 0 <= b.start && b.end < |lines|
    requires ValueShape(name) && !IsRegexSpace(name[0])
    ensures ServerNameSpec(ServerNameSpec(lines, b, name), b, name) == ServerNameSpec(lines, b, name)
  {
    ServerNameSpecReapply(lines, b, name, name);
  }

  /** With a candidate at `k`, the result is its rewritten line put in place. */
  lemma {:induction false} RewrittenSpec(lines: seq<string>, b: Block, name: string, k: int)
    returns (r: seq<string>, p: ServerNameParts)
    requires 0 <= b.start && b.end < |lines|
    requires k == FirstTrue(LineFlags(lines, Candidate), b.start, b.end) && k >= 0
    ensures ServerNameMatch(lines[k]) == Some(p)
    ensures PartsOf(lines[k], p) && BlankLead(p.head)
    ensures r == lines[k := p.head + name + p.rest] && ServerNameSpec(lines, b, name) == r
  {
    LineFlagsAt(lines, Candidate, k);
    CandidateHead(lines[k]);
    p := ServerNameMatch(lines[k]).value;
    r := lines[k := p.head + name + p.rest];
  }

  /** Once rewritten, the first candidate stays first, and a second name replaces the first one's value. */
  lemma {:induction false} RewrittenThen(lines: seq<string>, b: Block, n1: string, n2: string, k: int,
                                         p: ServerNameParts, r: seq<string>)
    requires 0 <= b.start && b.end < |lines|
    requires ValueShape(n1) && !IsRegexSpace(n1[0])
    requires k == FirstTrue(LineFlags(lines, Candidate), b.start, b.end) && k >= 0
    requires HeadShape(p.head) && BlankLead(p.head) && RestShape(p.rest)
    requires r == lines[k := p.head + n1 + p.rest]
    ensures ServerNameSpec(r, b, n2) == lines[k := p.head + n2 + p.rest]
  {
    var x := p.head + n1 + p.rest;
    RewrittenIsCandidate(p.head, n1, p.rest);
    FirstTrueUpdate(lines, Candidate, b.start, b.end, k, x);
    assert r[k := p.head + n2 + p.rest] == lines[k := p.head + n2 + p.rest];
  }

  // ---------------------------------------------------------------------------
  // Names the rewrite does not reproduce

  /** A head followed by one more blank is still a head, with the same lead. */
  lemma {:induction false} HeadGrows(h: string, c: char)
    requires HeadShape(h) && BlankLead(h) && IsBlank(c)
    ensures HeadShape(h + [c]) && BlankLead(h + [c])
  {
    var a := SpaceEnd(h, 0);
    var g := h + [c];
    assert forall j :: 0 <= j < |h| ==> g[j] == h[j];
    assert h[a] == h[a..a + 11][0];
    SpaceEndAt(g, 0, a);
    assert g[a..a + 11] == h[a..a + 11];
  }

  /**
   * A name with a leading space is not reproduced: the head's white-space run
   * swallows the space, so the second rewrite adds one more character.
   */
  lemma {:induction false} ServerNameSpecGrowsOnPaddedName(lines: seq<string>, b: Block, m: string)
    requires 0 <= b.start && b.end < |lines|
    requires FirstTrue(LineFlags(lines, Candidate), b.start, b.end) >= 0
    requires ValueShape(m) && !IsRegexSpace(m[0])
    ensures var k := FirstTrue(LineFlags(lines, Candidate), b.start, b.end);
            var once := ServerNameSpec(lines, b, " " + m);
            |ServerNameSpec(once, b, " " + m)[k]| == |once[k]| + 1
  {
    var k := FirstTrue(LineFlags(lines, Candidate), b.start, b.end);
    var r, p := RewrittenSpec(lines, b, " " + m, k);
    var h := p.head + " ";
    HeadGrows(p.head, ' ');
    AppendAssoc(p.head, " ", m);
    RewrittenThen(lines, b, m, " " + m, k, ServerNameParts(h, m, p.rest), r);
  }

  /**
   * A name holding `;` is not reproduced: the next match stops the value at
   * that `;`, so the second rewrite repeats what follows it.
   */
  lemma {:induction false} ServerNameSpecGrowsOnSemicolon(lines: seq<string>, b: Block, m: string, t: string)
    requires 0 <= b.start && b.end < |lines|
    requires FirstTrue(LineFlags(lines, Candidate), b.start, b.end) >= 0
    requires ValueShape(m) && !IsRegexSpace(m[0]) && '\n' !in t
    ensures var k := FirstTrue(LineFlags(lines, Candidate), b.start, b.end);
            var once := ServerNameSpec(lines, b, m + ";" + t);
            |ServerNameSpec(once, b, m + ";" + t)[k]| == |once[k]| + |t| + 1
  {
    var k := FirstTrue(LineFlags(lines, Candidate), b.start, b.end);
    var name := m + ";" + t;
    var r, p := RewrittenSpec(lines, b, name, k);
    var rest := ";" + t + p.rest;
    assert RestShape(rest);
    SemicolonShift(p.head, m, t, p.rest);
    RewrittenThen(lines, b, m, name, k, ServerNameParts(p.head, m, rest), r);
  }

  /** Moving `;t` from the end of the value to the front of the rest leaves the line as it is. */
  lemma SemicolonShift(h: string, m: string, t: string, r: string)
    ensures h + (m + ";" + t) + r == h + m + (";" + t + r)
  {
  }
}
