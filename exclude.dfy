/**
 * Exclude globs of the export (internal/swagexport/exclude.go): each glob is
 * translated to an anchored regular expression, `**` crossing directories,
 * `*` and `?` staying inside one path segment; a path is excluded when any
 * glob matches it after trimming blanks and one leading `/`.
 *
 * The regular expression is modelled by its source text, `Body`, and by the
 * tokens `Compile` reads back from that text; matching is `MatchToks` over
 * those tokens.
 */
module Exclude {
  import opened Wrappers
  import opened Text

  /** The four pieces a glob is made of. */
  datatype GlobTok = AnyDeep | AnySeg | AnyChar | Char(c: char)

  datatype GlobError = EmptyGlob

  datatype ExcludeError = InvalidGlob(pattern: string, cause: GlobError)

  /** Characters the translation escapes with a backslash. */
  predicate IsMeta(c: char) {
    c == '.' || c == '+' || c == '(' || c == ')' || c == '|' || c == '^' ||
    c == '$' || c == '{' || c == '}' || c == '[' || c == ']' || c == '\\'
  }

  /** Blanks and one leading `/` removed: applied to globs and to paths alike. */
  function Clean(s: string): string {
    TrimPrefix(TrimSpace(s), "/")
  }

  /** The glob read left to right; `**` is one token. */
  function Tokens(g: string): seq<GlobTok>
    decreases |g|
  {
    if g == [] then []
    else if g[0] == '*' && |g| > 1 && g[1] == '*' then [AnyDeep] + Tokens(g[2..])
    else if g[0] == '*' then [AnySeg] + Tokens(g[1..])
    else if g[0] == '?' then [AnyChar] + Tokens(g[1..])
    else [Char(g[0])] + Tokens(g[1..])
  }

  /** No literal `*` or `?`: what `Tokens` can produce. */
  predicate WellFormed(ts: seq<GlobTok>) {
    forall i :: 0 <= i < |ts| ==> ts[i] != Char('*') && ts[i] != Char('?')
  }

  lemma {:induction false} TokensWellFormed(g: string)
    ensures WellFormed(Tokens(g))
    decreases |g|
  {
    if g == [] {
    } else if g[0] == '*' && |g| > 1 && g[1] == '*' {
      TokensWellFormed(g[2..]);
    } else {
      TokensWellFormed(g[1..]);
    }
  }

  /** The regular-expression text of one token. */
  function TokText(t: GlobTok): string {
    match t
    case AnyDeep => ".*"
    case AnySeg => "[^/]*"
    case AnyChar => "[^/]"
    case Char(c) => if IsMeta(c) then ['\\', c] else [c]
  }

  /** The regular-expression text of a token sequence. */
  function Body(ts: seq<GlobTok>): string {
    if ts == [] then "" else TokText(ts[0]) + Body(ts[1..])
  }


  function Prepend(t: GlobTok, r: Option<seq<GlobTok>>): Option<seq<GlobTok>> {
    match r
    case None => None
    case Some(ts) => Some([t] + ts)
  }

  /**
   * Reads a regular-expression body back into tokens: `.*`, `[^/]*`, `[^/]`,
   * an escaped special character and a plain character; an unescaped special
   * character is refused.
   */
  function ParseBody(s: string): Option<seq<GlobTok>>
    decreases |s|
  {
    if s == [] then Some([])
    else if |s| >= 2 && s[0] == '.' && s[1] == '*' then Prepend(AnyDeep, ParseBody(s[2..]))
    else if |s| >= 4 && s[0] == '[' && s[1] == '^' && s[2] == '/' && s[3] == ']' then
      (if |s| >= 5 && s[4] == '*' then Prepend(AnySeg, ParseBody(s[5..]))
       else Prepend(AnyChar, ParseBody(s[4..])))
    else if |s| >= 2 && s[0] == '\\' && IsMeta(s[1]) then Prepend(Char(s[1]), ParseBody(s[2..]))
    else if IsMeta(s[0]) || s[0] == '*' || s[0] == '?' then None
    else Prepend(Char(s[0]), ParseBody(s[1..]))
  }

  /** `regexp.Compile` of an anchored source `^…$`. */
  function Compile(src: string): Option<seq<GlobTok>> {
    if |src| >= 2 && src[0] == '^' && src[|src| - 1] == '$' then ParseBody(src[1..|src| - 1])
    else None
  }

  /** The text of well-formed tokens never starts with a bare `*`. */
  lemma BodyHead(ts: seq<GlobTok>)
    requires WellFormed(ts)
    ensures Body(ts) == [] || Body(ts)[0] != '*'
  {
    if ts != [] {
      assert Body(ts)[0] == TokText(ts[0])[0];
    }
  }

  /** Reading back the text of well-formed tokens gives the tokens. */
  lemma {:induction false} ParseBodyOfBody(ts: seq<GlobTok>)
    requires WellFormed(ts)
    ensures ParseBody(Body(ts)) == Some(ts)
  {
    if ts != [] {
      var t := ts[0];
      var rest := Body(ts[1..]);
      assert WellFormed(ts[1..]) by {
        assert forall i :: 0 <= i < |ts[1..]| ==> ts[1..][i] == ts[i + 1];
      }
      ParseBodyOfBody(ts[1..]);
      var s := Body(ts);
      assert s == TokText(t) + rest;
      assert [t] + ts[1..] == ts;
      match t
      case AnyDeep =>
        assert s[0] == '.' && s[1] == '*';
        assert s[2..] == rest;
      case AnySeg =>
        assert s[5..] == rest;
      case AnyChar =>
        BodyHead(ts[1..]);
        assert s[4..] == rest;
      case Char(c) =>
        if IsMeta(c) {
          assert s[2..] == rest;
        } else {
          assert s[1..] == rest;
        }
    }
  }

  /** The anchored source of a glob compiles back to the glob's tokens. */
  lemma CompileOfGlob(g: string)
    ensures Compile("^" + Body(Tokens(g)) + "$") == Some(Tokens(g))
  {
    TokensWellFormed(g);
    ParseBodyOfBody(Tokens(g));
    var src := "^" + Body(Tokens(g)) + "$";
    assert src[1..|src| - 1] == Body(Tokens(g));
  }

  /** What `globToRegexp` yields: an error for a blank glob, else its tokens. */
  function GlobSpec(glob: string): Result<seq<GlobTok>, GlobError> {
    var g := Clean(glob);
    if g == [] then Err(EmptyGlob) else Ok(Tokens(g))
  }

  /**
   * `globToRegexp`: builds the anchored source one rune at a time and
   * compiles it.
   */
  method GlobToRegexp(glob: string) returns (r: Result<seq<GlobTok>, GlobError>)
    ensures r == GlobSpec(glob)
  {
    var g := Clean(glob);
    if g == [] {
      return Err(EmptyGlob);
    }
    var b := Translate(g);
    CompileOfGlob(g);
    var re := Compile(b);
    return Ok(re.value);
  }

  /** The rune loop of `globToRegexp`: the anchored source of `g`. */
  method Translate(g: string) returns (b: string)
    ensures b == "^" + Body(Tokens(g)) + "$"
  {
    b := "^";
    var i := 0;
    while i < |g|
      invariant 0 <= i <= |g|
      invariant b + Body(Tokens(g[i..])) == "^" + Body(Tokens(g))
      decreases |g| - i
    {
      var ch := g[i];
      var piece: string, n: nat;
      if ch == '*' && i + 1 < |g| && g[i + 1] == '*' {
        piece, n := ".*", 2;
      } else if ch == '*' {
        piece, n := "[^/]*", 1;
      } else if ch == '?' {
        piece, n := "[^/]", 1;
      } else if IsMeta(ch) {
        piece, n := ['\\', ch], 1;
      } else {
        piece, n := [ch], 1;
      }
      ghost var rest := Body(Tokens(g[i + n..]));
      assert Body(Tokens(g[i..])) == piece + rest by {
        TokensAt(g, i);
      }
      assert (b + piece) + rest == b + (piece + rest);
      b := b + piece;
      i := i + n;
      assert b + rest == "^" + Body(Tokens(g));
    }
    assert g[i..] == [] && Tokens(g[i..]) == [];
    assert b == "^" + Body(Tokens(g));
    b := b + "$";
  }

  /** One step of the translation: the text of the token starting at `g[i]`. */
  lemma TokensAt(g: string, i: nat)
    requires i < |g|
    ensures g[i] == '*' && i + 1 < |g| && g[i + 1] == '*' ==>
      Body(Tokens(g[i..])) == ".*" + Body(Tokens(g[i + 2..]))
    ensures g[i] == '*' && !(i + 1 < |g| && g[i + 1] == '*') ==>
      Body(Tokens(g[i..])) == "[^/]*" + Body(Tokens(g[i + 1..]))
    ensures g[i] == '?' ==> Body(Tokens(g[i..])) == "[^/]" + Body(Tokens(g[i + 1..]))
    ensures g[i] != '*' && g[i] != '?' ==>
      Body(Tokens(g[i..])) == TokText(Char(g[i])) + Body(Tokens(g[i + 1..]))
  {
    var h := g[i..];
    assert h[0] == g[i] && h[1..] == g[i + 1..];
    if i + 1 < |g| {
      assert h[1] == g[i + 1] && h[2..] == g[i + 2..];
    }
    var ts := Tokens(h);
    assert ts[1..] == Tokens(h[1..]) || ts[1..] == Tokens(h[2..]);
  }

  // ---------------------------------------------------------------------------
  // Matching

  /**
   * Whether the whole of `s` matches the tokens: `**` takes any run of
   * characters but newlines (`.` of a regular expression), `*` any run
   * without `/`, `?` one character that is not `/`.
   */
  predicate MatchToks(ts: seq<GlobTok>, s: string)
    decreases |s|, |ts|
  {
    if ts == [] then s == []
    else match ts[0]
      case Char(c) => s != [] && s[0] == c && MatchToks(ts[1..], s[1..])
      case AnyChar => s != [] && s[0] != '/' && MatchToks(ts[1..], s[1..])
      case AnySeg => MatchToks(ts[1..], s) || (s != [] && s[0] != '/' && MatchToks(ts, s[1..]))
      case AnyDeep => MatchToks(ts[1..], s) || (s != [] && s[0] != '\n' && MatchToks(ts, s[1..]))
  }

  /** Whether a glob matches a cleaned path. */
  predicate GlobMatch(glob: string, s: string) {
    MatchToks(Tokens(Clean(glob)), s)
  }

  /** A glob without `*` or `?` matches exactly its own text. */
  lemma {:induction false} LiteralGlob(g: string, s: string)
    requires '*' !in g && '?' !in g
    ensures MatchToks(Tokens(g), s) <==> s == g
    decreases |g|
  {
    if g != [] {
      assert Tokens(g) == [Char(g[0])] + Tokens(g[1..]);
      assert '*' !in g[1..] && '?' !in g[1..];
      if s != [] {
        LiteralGlob(g[1..], s[1..]);
        assert s == g <==> (s[0] == g[0] && s[1..] == g[1..]);
      }
    }
  }

  /** `*` alone matches the runs without `/`. */
  lemma {:induction false} SegmentStar(s: string)
    ensures MatchToks([AnySeg], s) <==> '/' !in s
    decreases |s|
  {
    assert [AnySeg][1..] == [];
    if s != [] {
      SegmentStar(s[1..]);
      assert '/' !in s <==> s[0] != '/' && '/' !in s[1..];
    }
  }

  /** `**` alone matches the runs without a newline, slashes included. */
  lemma {:induction false} DeepStar(s: string)
    ensures MatchToks([AnyDeep], s) <==> '\n' !in s
    decreases |s|
  {
    assert [AnyDeep][1..] == [];
    if s != [] {
      DeepStar(s[1..]);
      assert '\n' !in s <==> s[0] != '\n' && '\n' !in s[1..];
    }
  }

  /** Whatever `*` matches, `**` matches too. */
  lemma {:induction false} SegmentWithinDeep(ts: seq<GlobTok>, s: string)
    requires ts != [] && ts[0] == AnySeg
    requires '\n' !in s
    requires MatchToks(ts, s)
    ensures MatchToks([AnyDeep] + ts[1..], s)
    decreases |s|
  {
    var us := [AnyDeep] + ts[1..];
    assert us[0] == AnyDeep && us[1..] == ts[1..];
    if !MatchToks(ts[1..], s) {
      assert s[1..] == s[1..];
      SegmentWithinDeep(ts, s[1..]);
    }
  }

  // ---------------------------------------------------------------------------
  // The excluder

  /** A compiled excluder; `None` stands for the nil excluder. */
  datatype Excluder = Excluder(patterns: seq<string>, res: seq<seq<GlobTok>>)

  /** Each pattern trimmed of blanks. */
  function Trimmed(ps: seq<string>): (ts: seq<string>)
    ensures |ts| == |ps| && forall i :: 0 <= i < |ps| ==> ts[i] == TrimSpace(ps[i])
  {
    seq(|ps|, i requires 0 <= i < |ps| => TrimSpace(ps[i]))
  }

  /** The non-empty strings of `ts`, in their order. */
  function NonEmpty(ts: seq<string>): seq<string> {
    if ts == [] then []
    else
      var n := |ts| - 1;
      NonEmpty(ts[..n]) + (if ts[n] == "" then [] else [ts[n]])
  }

  /** The patterns trimmed, blank ones dropped, in their order. */
  function Cleaned(ps: seq<string>): seq<string> {
    NonEmpty(Trimmed(ps))
  }

  /** Each cleaned pattern as a glob: blanks and a leading `/` removed. */
  function Globs(cs: seq<string>): (gs: seq<string>)
    ensures |gs| == |cs| && forall i :: 0 <= i < |cs| ==> gs[i] == Clean(cs[i])
  {
    seq(|cs|, i requires 0 <= i < |cs| => Clean(cs[i]))
  }

  /**
   * The patterns `cs` compiled from their globs `gs`, in order, or the error
   * for the first blank glob.
   */
  function CompileGlobs(cs: seq<string>, gs: seq<string>): Result<seq<seq<GlobTok>>, ExcludeError>
    requires |gs| == |cs|
  {
    if cs == [] then Ok([])
    else
      var n := |cs| - 1;
      match CompileGlobs(cs[..n], gs[..n])
      case Err(e) => Err(e)
      case Ok(rs) =>
        if gs[n] == [] then Err(InvalidGlob(cs[n], EmptyGlob))
        else Ok(rs + [Tokens(gs[n])])
  }

  /** The compiled globs of the cleaned patterns, or the first failure. */
  function CompileAll(cs: seq<string>): Result<seq<seq<GlobTok>>, ExcludeError> {
    CompileGlobs(cs, Globs(cs))
  }

  /** What `newExcluder` returns. */
  function NewExcluderSpec(ps: seq<string>): Result<Option<Excluder>, ExcludeError> {
    var cs := Cleaned(ps);
    if cs == [] then Ok(None)
    else match CompileAll(cs)
      case Err(e) => Err(e)
      case Ok(rs) => Ok(Some(Excluder(cs, rs)))
  }

  /** `newExcluder`: trims and filters the patterns, then compiles each. */
  method NewExcluder(patterns: seq<string>) returns (r: Result<Option<Excluder>, ExcludeError>)
    ensures r == NewExcluderSpec(patterns)
  {
    var cleaned: seq<string> := [];
    ghost var ts := Trimmed(patterns);
    var i := 0;
    while i < |patterns|
      invariant 0 <= i <= |patterns|
      invariant cleaned == NonEmpty(ts[..i])
    {
      NonEmptySnoc(ts, i);
      var p := TrimSpace(patterns[i]);
      assert p == ts[i];
      if p != "" {
        cleaned := cleaned + [p];
      }
      i := i + 1;
    }
    assert ts[..i] == ts;
    if cleaned == [] {
      return Ok(None);
    }
    var res: seq<seq<GlobTok>> := [];
    ghost var gs := Globs(cleaned);
    var j := 0;
    while j < |cleaned|
      invariant 0 <= j <= |cleaned|
      invariant CompileGlobs(cleaned[..j], gs[..j]) == Ok(res)
    {
      CompileGlobsSnoc(cleaned, gs, j);
      var re := GlobToRegexp(cleaned[j]);
      if re.Err? {
        CompileGlobsErrSticky(cleaned, gs, j + 1);
        return Err(InvalidGlob(cleaned[j], re.error));
      }
      res := res + [re.value];
      j := j + 1;
    }
    assert cleaned[..j] == cleaned && gs[..j] == gs;
    return Ok(Some(Excluder(cleaned, res)));
  }

  lemma CompileGlobsSnoc(cs: seq<string>, gs: seq<string>, j: nat)
    requires |gs| == |cs| && j < |cs|
    ensures CompileGlobs(cs[..j + 1], gs[..j + 1]) ==
      match CompileGlobs(cs[..j], gs[..j])
      case Err(e) => Err(e)
      case Ok(rs) =>
        if gs[j] == [] then Err(InvalidGlob(cs[j], EmptyGlob))
        else Ok(rs + [Tokens(gs[j])])
  {
    assert cs[..j + 1][..j] == cs[..j] && gs[..j + 1][..j] == gs[..j];
  }

  /** Once a prefix fails to compile, so does the whole list, with the same error. */
  lemma {:induction false} CompileGlobsErrSticky(cs: seq<string>, gs: seq<string>, k: nat)
    requires |gs| == |cs| && k <= |cs|
    requires CompileGlobs(cs[..k], gs[..k]).Err?
    ensures CompileGlobs(cs, gs) == CompileGlobs(cs[..k], gs[..k])
    decreases |cs| - k
  {
    if k < |cs| {
      CompileGlobsSnoc(cs, gs, k);
      CompileGlobsErrSticky(cs, gs, k + 1);
    } else {
      assert cs[..k] == cs && gs[..k] == gs;
    }
  }

  /** Whether the excluder skips a path: some glob matches it once cleaned. */
  predicate Excluded(e: Option<Excluder>, path: string) {
    e.Some? && exists i :: 0 <= i < |e.value.res| && MatchToks(e.value.res[i], Clean(path))
  }

  /** `IsExcluded`: false for the nil excluder, else the first matching glob wins. */
  method IsExcluded(e: Option<Excluder>, path: string) returns (b: bool)
    ensures b == Excluded(e, path)
  {
    if e.None? {
      return false;
    }
    var s := Clean(path);
    var res := e.value.res;
    var i := 0;
    while i < |res|
      invariant 0 <= i <= |res|
      invariant forall k :: 0 <= k < i ==> !MatchToks(res[k], s)
    {
      if MatchToks(res[i], s) {
        return true;
      }
      i := i + 1;
    }
    return false;
  }

  // ---------------------------------------------------------------------------
  // What the excluder means

  /** A cleaned pattern is exactly a non-blank pattern, trimmed. */
  lemma NonEmptySnoc(ts: seq<string>, i: nat)
    requires i < |ts|
    ensures NonEmpty(ts[..i + 1]) == NonEmpty(ts[..i]) + (if ts[i] == "" then [] else [ts[i]])
  {
    assert ts[..i + 1][..i] == ts[..i];
  }

  lemma {:induction false} NonEmptyMembers(ts: seq<string>, x: string)
    ensures x in NonEmpty(ts) <==> x in ts && x != ""
  {
    if ts != [] {
      var n := |ts| - 1;
      NonEmptyMembers(ts[..n], x);
      assert ts == ts[..n] + [ts[n]];
    }
  }

  lemma CleanedMembers(ps: seq<string>, x: string)
    ensures x in Cleaned(ps) <==> exists i :: 0 <= i < |ps| && TrimSpace(ps[i]) == x && x != ""
  {
    var ts := Trimmed(ps);
    NonEmptyMembers(ts, x);
    if x in ts {
      var i :| 0 <= i < |ts| && ts[i] == x;
      assert TrimSpace(ps[i]) == x;
    }
  }

  /** The globs compile exactly when none of them is blank. */
  lemma {:induction false} CompileGlobsOk(cs: seq<string>, gs: seq<string>)
    requires |gs| == |cs|
    ensures CompileGlobs(cs, gs).Ok? <==> forall i :: 0 <= i < |gs| ==> gs[i] != []
  {
    if cs != [] {
      var n := |cs| - 1;
      CompileGlobsOk(cs[..n], gs[..n]);
      assert forall i :: 0 <= i < n ==> gs[..n][i] == gs[i];
    }
  }

  /** When nothing fails, the compiled list lines up with the globs. */
  lemma {:induction false} CompileGlobsValues(cs: seq<string>, gs: seq<string>)
    requires |gs| == |cs| && CompileGlobs(cs, gs).Ok?
    ensures |CompileGlobs(cs, gs).value| == |gs|
    ensures forall i :: 0 <= i < |gs| ==> CompileGlobs(cs, gs).value[i] == Tokens(gs[i])
  {
    if cs != [] {
      var n := |cs| - 1;
      CompileGlobsValues(cs[..n], gs[..n]);
      assert forall i :: 0 <= i < n ==> gs[..n][i] == gs[i];
    }
  }

  /** The cleaned patterns compile exactly when none is blank once cleaned. */
  lemma CompileAllOk(cs: seq<string>)
    ensures CompileAll(cs).Ok? <==> forall i :: 0 <= i < |cs| ==> Clean(cs[i]) != []
  {
    CompileGlobsOk(cs, Globs(cs));
  }

  /** When nothing fails, the compiled list holds each pattern's tokens in order. */
  lemma CompileAllValues(cs: seq<string>)
    requires CompileAll(cs).Ok?
    ensures |CompileAll(cs).value| == |cs|
    ensures forall i :: 0 <= i < |cs| ==> CompileAll(cs).value[i] == Tokens(Clean(cs[i]))
  {
    CompileGlobsValues(cs, Globs(cs));
  }

  /** Trimmed non-blank text loses its leading `/` and nothing else is blanked. */
  lemma CleanTrimmed(p: string)
    requires TrimSpace(p) != ""
    ensures Clean(TrimSpace(p)) == [] <==> TrimSpace(p) == "/"
  {
    TrimSpaceOfTrimmed(TrimSpace(p));
  }

  /** `newExcluder` fails exactly when some pattern is `/` once trimmed. */
  lemma NewExcluderFails(ps: seq<string>)
    ensures NewExcluderSpec(ps).Err? <==> exists i :: 0 <= i < |ps| && TrimSpace(ps[i]) == "/"
  {
    var cs := Cleaned(ps);
    CompileAllOk(cs);
    if exists i :: 0 <= i < |ps| && TrimSpace(ps[i]) == "/" {
      var i :| 0 <= i < |ps| && TrimSpace(ps[i]) == "/";
      CleanedMembers(ps, "/");
      var k :| 0 <= k < |cs| && cs[k] == "/";
      assert Clean(cs[k]) == [];
    } else if cs != [] {
      forall k | 0 <= k < |cs| ensures Clean(cs[k]) != [] {
        CleanedMembers(ps, cs[k]);
        var i :| 0 <= i < |ps| && TrimSpace(ps[i]) == cs[k] && cs[k] != "";
        CleanTrimmed(ps[i]);
      }
    }
  }

  /** The nil excluder arises exactly when every pattern is blank. */
  lemma NewExcluderNil(ps: seq<string>)
    ensures NewExcluderSpec(ps) == Ok(None) <==> forall i :: 0 <= i < |ps| ==> TrimSpace(ps[i]) == ""
  {
    var cs := Cleaned(ps);
    if cs != [] {
      CleanedMembers(ps, cs[0]);
      CompileAllOk(cs);
    } else {
      forall i | 0 <= i < |ps| ensures TrimSpace(ps[i]) == "" {
        CleanedMembers(ps, TrimSpace(ps[i]));
      }
    }
  }

  /**
   * A built excluder skips a path exactly when one of the non-blank patterns,
   * as a glob, matches the cleaned path.
   */
  lemma ExcludedMeaning(ps: seq<string>, path: string)
    requires NewExcluderSpec(ps).Ok?
    ensures Excluded(NewExcluderSpec(ps).value, path) <==>
      exists i :: 0 <= i < |ps| && TrimSpace(ps[i]) != "" && GlobMatch(TrimSpace(ps[i]), Clean(path))
  {
    var cs := Cleaned(ps);
    var s := Clean(path);
    if cs != [] {
      CompileAllValues(cs);
      var rs := CompileAll(cs).value;
      if Excluded(NewExcluderSpec(ps).value, path) {
        var k :| 0 <= k < |rs| && MatchToks(rs[k], s);
        CleanedMembers(ps, cs[k]);
        var i :| 0 <= i < |ps| && TrimSpace(ps[i]) == cs[k] && cs[k] != "";
        assert GlobMatch(TrimSpace(ps[i]), s);
      }
      if exists i :: 0 <= i < |ps| && TrimSpace(ps[i]) != "" && GlobMatch(TrimSpace(ps[i]), s) {
        var i :| 0 <= i < |ps| && TrimSpace(ps[i]) != "" && GlobMatch(TrimSpace(ps[i]), s);
        CleanedMembers(ps, TrimSpace(ps[i]));
        var k :| 0 <= k < |cs| && cs[k] == TrimSpace(ps[i]);
        assert MatchToks(rs[k], s);
      }
    } else {
      if exists i :: 0 <= i < |ps| && TrimSpace(ps[i]) != "" && GlobMatch(TrimSpace(ps[i]), s) {
        var i :| 0 <= i < |ps| && TrimSpace(ps[i]) != "" && GlobMatch(TrimSpace(ps[i]), s);
        CleanedMembers(ps, TrimSpace(ps[i]));
      }
    }
  }

  /**
   * A single pattern naming one file, with no wildcard, excludes that file and
   * nothing else (a leading `/` or surrounding blanks on either side do not matter).
   */
  lemma SingleFileExcluded(p: string, path: string)
    requires Clean(p) != [] && '*' !in Clean(p) && '?' !in Clean(p)
    ensures NewExcluderSpec([p]).Ok?
    ensures Excluded(NewExcluderSpec([p]).value, path) <==> Clean(path) == Clean(p)
  {
    var t := TrimSpace(p);
    assert t != "" by {
      assert Clean(p) == TrimPrefix(t, "/");
    }
    assert t != "/" by {
      assert Clean(p) == TrimPrefix(t, "/");
    }
    assert NewExcluderSpec([p]).Ok? by {
      NewExcluderFails([p]);
    }
    assert Clean(t) == Clean(p) by {
      TrimSpaceOfTrimmed(t);
    }
    ExcludedMeaning([p], path);
    assert GlobMatch(t, Clean(path)) <==> Clean(path) == Clean(p) by {
      LiteralGlob(Clean(p), Clean(path));
    }
  }
}
