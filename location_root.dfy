/**
 * The `location /` rewrite of the default-site editor
 * (internal/nginx/default_site.go, `updateLocationRoot` and its helpers): the
 * lines that route the location (`try_files`, the proxy includes, the
 * `$upstream_*` variables, `proxy_pass`) are stripped from the body, and one
 * fresh shape is put back in front of the first remaining directive.
 */
module LocationRoot {
  import opened Text
  import opened BlockLocator
  import opened DefaultSite

  // ---------------------------------------------------------------------------
  // Which lines go

  /** The prefixes that mark a line of either injected shape. */
  const Needles: seq<string> := [
    "try_files ",
    "include /config/nginx/proxy.conf;",
    "include /config/nginx/resolver.conf;",
    "set $upstream_app ",
    "set $upstream_port ",
    "set $upstream_proto ",
    "proxy_pass "
  ]

  /** `shouldRemoveFromLocation`: a significant line whose trimmed text starts with a needle. */
  predicate ShouldRemove(line: string) {
    var s := TrimSpace(line);
    s != "" && !HasPrefix(s, "#") && HasNeedle(s, 0)
  }

  /** `s` starts with one of the needles from the `k`-th on. */
  predicate HasNeedle(s: string, k: nat)
    decreases |Needles| - k
  {
    k < |Needles| && (HasPrefix(s, Needles[k]) || HasNeedle(s, k + 1))
  }

  /** Starting with a needle is starting with one of them. */
  lemma {:induction false} HasNeedleIff(s: string, k: nat)
    ensures HasNeedle(s, k) <==> exists i :: k <= i < |Needles| && HasPrefix(s, Needles[i])
    decreases |Needles| - k
  {
    if k < |Needles| {
      HasNeedleIff(s, k + 1);
      if exists i :: k <= i < |Needles| && HasPrefix(s, Needles[i]) {
        var i :| k <= i < |Needles| && HasPrefix(s, Needles[i]);
        if i > k {
          assert k + 1 <= i < |Needles| && HasPrefix(s, Needles[i]);
        }
      }
    }
  }

  /** Blank lines and comments are never removed. */
  lemma ShouldRemoveSignificant(line: string)
    ensures ShouldRemove(line) ==> Significant(line)
  {
  }

  /** `shouldRemoveFromLocation`, which tries the needles in turn. */
  method ShouldRemoveFromLocation(line: string) returns (r: bool)
    ensures r == ShouldRemove(line)
  {
    var s := TrimSpace(line);
    if s == "" || HasPrefix(s, "#") {
      return false;
    }
    var i := 0;
    while i < |Needles|
      invariant 0 <= i <= |Needles|
      invariant HasNeedle(s, 0) == HasNeedle(s, i)
    {
      if HasPrefix(s, Needles[i]) {
        return true;
      }
      i := i + 1;
    }
    return false;
  }

  // ---------------------------------------------------------------------------
  // Filtering a body

  /** The lines of `lines` for which `f` is false, in their order. */
  function Without(lines: seq<string>, f: string -> bool): (r: seq<string>)
    ensures |r| <= |lines|
    ensures forall i :: 0 <= i < |r| ==> !f(r[i])
  {
    if lines == [] then []
    else
      var last := lines[|lines| - 1];
      Without(lines[..|lines| - 1], f) + (if f(last) then [] else [last])
  }

  /** A line survives exactly when it was there and `f` keeps it. */
  lemma {:induction false} WithoutMembers(lines: seq<string>, f: string -> bool)
    ensures forall x :: x in Without(lines, f) <==> x in lines && !f(x)
  {
    if lines != [] {
      var init := lines[..|lines| - 1];
      WithoutMembers(init, f);
      assert lines == init + [lines[|lines| - 1]];
    }
  }

  /** One more line at the end of the input adds it at the end of the output, unless `f` removes it. */
  lemma WithoutStep(lines: seq<string>, lo: int, i: int, f: string -> bool)
    requires 0 <= lo <= i < |lines|
    ensures Without(lines[lo..i + 1], f) == Without(lines[lo..i], f) + (if f(lines[i]) then [] else [lines[i]])
  {
    assert lines[lo..i + 1][..i - lo] == lines[lo..i];
  }

  lemma {:induction false} WithoutAppend(a: seq<string>, b: seq<string>, f: string -> bool)
    ensures Without(a + b, f) == Without(a, f) + Without(b, f)
    decreases |b|
  {
    if b != [] {
      var c := a + b;
      assert c[..|c| - 1] == a + b[..|b| - 1];
      WithoutAppend(a, b[..|b| - 1], f);
    } else {
      assert a + b == a;
    }
  }

  /** Nothing is taken out of lines that `f` keeps. */
  lemma {:induction false} WithoutNone(a: seq<string>, f: string -> bool)
    requires forall i :: 0 <= i < |a| ==> !f(a[i])
    ensures Without(a, f) == a
  {
    if a != [] {
      WithoutNone(a[..|a| - 1], f);
    }
  }

  /** Everything is taken out of lines that `f` removes. */
  lemma {:induction false} WithoutAll(a: seq<string>, f: string -> bool)
    requires forall i :: 0 <= i < |a| ==> f(a[i])
    ensures Without(a, f) == []
  {
    if a != [] {
      WithoutAll(a[..|a| - 1], f);
    }
  }

  /** Filtering twice is filtering once. */
  lemma WithoutIdempotent(a: seq<string>, f: string -> bool)
    ensures Without(Without(a, f), f) == Without(a, f)
  {
    WithoutNone(Without(a, f), f);
  }

  // ---------------------------------------------------------------------------
  // Indentation and the insertion point

  /** `leadingWhitespace`: the spaces and tabs a line starts with. */
  function LeadingBlanks(s: string): (r: string)
    ensures |r| <= |s| && r == s[..|r|]
    ensures forall i :: 0 <= i < |r| ==> IsBlank(r[i])
    ensures |r| == |s| || !IsBlank(s[|r|])
  {
    var t := TrimLeftBlanks(s);
    if t != [] then assert s[|s| - |t|] == t[0]; s[..|s| - |t|] else s
  }

  /** `leadingWhitespace`, scanning from the left. */
  method LeadingWhitespace(s: string) returns (r: string)
    ensures r == LeadingBlanks(s)
  {
    var i := 0;
    while i < |s| && IsBlank(s[i])
      invariant 0 <= i <= |s|
      invariant forall j :: 0 <= j < i ==> IsBlank(s[j])
    {
      i := i + 1;
    }
    r := s[..i];
    LeadingBlanksAt(s, i);
  }

  /** The leading blanks are determined by where they stop. */
  lemma LeadingBlanksAt(s: string, n: nat)
    requires n <= |s| && (n == |s| || !IsBlank(s[n]))
    requires forall j :: 0 <= j < n ==> IsBlank(s[j])
    ensures LeadingBlanks(s) == s[..n]
  {
    var l := LeadingBlanks(s);
    assert forall j :: 0 <= j < |l| ==> IsBlank(s[j]);
  }

  /** The index of the first significant line, or -1. */
  function FirstSignificant(lines: seq<string>): (k: int)
    ensures -1 <= k < |lines|
  {
    FirstTrue(LineFlags(lines, Significant), 0, |lines| - 1)
  }

  /** What the first significant index means. */
  lemma {:induction false} FirstSignificantSpec(lines: seq<string>)
    ensures var k := FirstSignificant(lines);
            && (k == -1 || Significant(lines[k]))
            && forall j :: 0 <= j < |lines| && (k == -1 || j < k) ==> !Significant(lines[j])
  {
    forall j | 0 <= j < |lines| ensures LineFlags(lines, Significant)[j] == Significant(lines[j]) {
      LineFlagsAt(lines, Significant, j);
    }
  }

  /** `firstNonCommentNonEmptyIndex`. */
  method FirstNonCommentNonEmptyIndex(lines: seq<string>) returns (k: int)
    ensures k == -1 || (0 <= k < |lines| && Significant(lines[k]))
    ensures forall j :: 0 <= j < |lines| && (k == -1 || j < k) ==> !Significant(lines[j])
    ensures k == FirstSignificant(lines)
  {
    k := 0;
    while k < |lines|
      invariant 0 <= k <= |lines|
      invariant forall j :: 0 <= j < k ==> !Significant(lines[j])
    {
      var s := TrimSpace(lines[k]);
      if !(s == "" || HasPrefix(s, "#")) {
        FirstSignificantAt(lines, k);
        return;
      }
      k := k + 1;
    }
    k := -1;
    FirstSignificantNone(lines);
  }

  lemma {:induction false} FirstSignificantAt(lines: seq<string>, k: int)
    requires 0 <= k < |lines| && Significant(lines[k])
    requires forall j :: 0 <= j < k ==> !Significant(lines[j])
    ensures FirstSignificant(lines) == k
  {
    forall j | 0 <= j <= k ensures LineFlags(lines, Significant)[j] == Significant(lines[j]) {
      LineFlagsAt(lines, Significant, j);
    }
    FirstTrueAt(LineFlags(lines, Significant), 0, |lines| - 1, k);
  }

  lemma {:induction false} FirstSignificantNone(lines: seq<string>)
    requires forall j :: 0 <= j < |lines| ==> !Significant(lines[j])
    ensures FirstSignificant(lines) == -1
  {
    FirstSignificantSpec(lines);
  }

  // ---------------------------------------------------------------------------
  // The injected shapes

  const TryFiles: string := "try_files " + "$uri $uri/ /index.html /index.php?$args =404;"
  const ProxyInclude: string := "include /config/nginx/proxy.conf;"
  const ResolverInclude: string := "include /config/nginx/resolver.conf;"
  const UpstreamProtoRef: string := "$upstream_proto://"
  const UpstreamAppRef: string := "$upstream_app:"
  const UpstreamPortRef: string := "$upstream_port;"
  /** `proxy_pass` to the address the three `set` variables make up. */
  const ProxyPass: string := "proxy_pass " + UpstreamProtoRef + UpstreamAppRef + UpstreamPortRef

  /** The indented `proxy_pass` line, cut where each variable begins. */
  lemma ProxyPassParts(indent: string)
    ensures indent + ProxyPass == indent + "proxy_pass " + UpstreamProtoRef + UpstreamAppRef + UpstreamPortRef
  {
    var h := "proxy_pass ";
    AppendAssoc(indent, h + UpstreamProtoRef + UpstreamAppRef, UpstreamPortRef);
    AppendAssoc(indent, h + UpstreamProtoRef, UpstreamAppRef);
    AppendAssoc(indent, h, UpstreamProtoRef);
  }

  /** The directives injected, before indentation. */
  function Directives(cfg: HomepageConfig, clear: bool): (r: seq<string>)
    ensures |r| == if clear then 1 else 6
  {
    if clear then [TryFiles]
    else [
      ProxyInclude,
      ResolverInclude,
      "set $upstream_app " + cfg.upstreamApp + ";",
      "set $upstream_port " + IntToString(cfg.upstreamPort) + ";",
      "set $upstream_proto " + cfg.upstreamProto + ";",
      ProxyPass
    ]
  }

  /** Each directive behind the indentation. */
  function Indented(indent: string, ds: seq<string>): (r: seq<string>) {
    seq(|ds|, i requires 0 <= i < |ds| => indent + ds[i])
  }

  /** The injected lines for a location line. */
  function Inject(locationLine: string, cfg: HomepageConfig, clear: bool): seq<string> {
    Indented(LeadingBlanks(locationLine) + "    ", Directives(cfg, clear))
  }

  /** A directive behind blank indentation is removed when it starts with a needle. */
  lemma PaddedRemovable(indent: string, t: string, i: int)
    requires forall j :: 0 <= j < |indent| ==> IsBlank(indent[j])
    requires t != [] && !IsSpace(t[0]) && t[0] != '#' && !IsSpace(t[|t| - 1])
    requires 0 <= i < |Needles| && HasPrefix(t, Needles[i])
    ensures ShouldRemove(indent + t)
  {
    TrimSpacePadded(indent, t);
    HasNeedleIff(t, 0);
  }

  /** `shouldRemoveFromLocation` removes every injected line, whatever the configuration. */
  lemma InjectRemovable(locationLine: string, cfg: HomepageConfig, clear: bool)
    ensures forall i :: 0 <= i < |Inject(locationLine, cfg, clear)| ==> ShouldRemove(Inject(locationLine, cfg, clear)[i])
  {
    var indent := LeadingBlanks(locationLine) + "    ";
    var ds := Directives(cfg, clear);
    forall i | 0 <= i < |ds| ensures ShouldRemove(indent + ds[i]) {
      DirectiveRemovable(indent, cfg, clear, i);
    }
  }

  lemma DirectiveRemovable(indent: string, cfg: HomepageConfig, clear: bool, i: int)
    requires forall j :: 0 <= j < |indent| ==> IsBlank(indent[j])
    requires 0 <= i < |Directives(cfg, clear)|
    ensures ShouldRemove(indent + Directives(cfg, clear)[i])
  {
    var t := Directives(cfg, clear)[i];
    if clear {
      assert t[..10] == Needles[0];
      PaddedRemovable(indent, t, 0);
    } else if i == 0 {
      PaddedRemovable(indent, t, 1);
    } else if i == 1 {
      PaddedRemovable(indent, t, 2);
    } else if i == 2 {
      assert t[..18] == Needles[3];
      PaddedRemovable(indent, t, 3);
    } else if i == 3 {
      assert t[..19] == Needles[4];
      PaddedRemovable(indent, t, 4);
    } else if i == 4 {
      assert t[..20] == Needles[5];
      PaddedRemovable(indent, t, 5);
    } else {
      assert t[..11] == Needles[6];
      PaddedRemovable(indent, t, 6);
    }
  }

  // ---------------------------------------------------------------------------
  // The body and the lines

  /** The kept lines with the injected ones put in front of the first significant one. */
  function NewBody(body: seq<string>, locationLine: string, cfg: HomepageConfig, clear: bool): (r: seq<string>)
    ensures |r| == |Without(body, ShouldRemove)| + |Inject(locationLine, cfg, clear)|
  {
    var kept := Without(body, ShouldRemove);
    var ins := InsertionPoint(kept);
    kept[..ins] + Inject(locationLine, cfg, clear) + kept[ins..]
  }

  /** Where the shape goes: at the first significant kept line, or at the end. */
  function InsertionPoint(kept: seq<string>): (ins: int)
    ensures 0 <= ins <= |kept|
  {
    var p := FirstSignificant(kept);
    if p < 0 then |kept| else p
  }

  /**
   * `updateLocationRoot` on the block `loc`: the lines strictly inside it are
   * replaced by the new body; a block with no line inside it is left alone.
   */
  function LocationRootSpec(lines: seq<string>, loc: Block, cfg: HomepageConfig, clear: bool): (r: seq<string>)
    requires 0 <= loc.start < loc.end < |lines|
  {
    if loc.end - loc.start < 2 then lines
    else lines[..loc.start + 1] + NewBody(lines[loc.start + 1..loc.end], lines[loc.start], cfg, clear) + lines[loc.end..]
  }

  /** `updateLocationRoot`. */
  method UpdateLocationRoot(lines: seq<string>, loc: Block, cfg: HomepageConfig, clear: bool)
    returns (out: seq<string>)
    requires 0 <= loc.start < loc.end < |lines|
    ensures out == LocationRootSpec(lines, loc, cfg, clear)
  {
    if loc.end - loc.start < 2 {
      return lines;
    }
    var locationLine := lines[loc.start];
    var lead := LeadingWhitespace(locationLine);
    var indent := lead + "    ";
    var bodyStart := loc.start + 1;
    var bodyEnd := loc.end - 1;

    var newBody := KeptLines(lines, bodyStart, bodyEnd);
    var insertPos := FirstNonCommentNonEmptyIndex(newBody);
    if insertPos < 0 {
      insertPos := |newBody|;
    }
    var inject: seq<string>;
    if clear {
      inject := [indent + TryFiles];
      ClearInject(locationLine, indent, cfg);
    } else {
      inject := [
        indent + ProxyInclude,
        indent + ResolverInclude,
        indent + ("set $upstream_app " + cfg.upstreamApp + ";"),
        indent + ("set $upstream_port " + IntToString(cfg.upstreamPort) + ";"),
        indent + ("set $upstream_proto " + cfg.upstreamProto + ";"),
        indent + ProxyPass
      ];
      ProxyInject(locationLine, indent, cfg);
    }
    AssembleSpec(lines, loc, cfg, clear, newBody, insertPos, inject);
    out := lines[..loc.start + 1] + (newBody[..insertPos] + inject + newBody[insertPos..]) + lines[loc.end..];
  }

  /** The loop of `updateLocationRoot` over the lines `lo..hi` of the body: those it keeps, in order. */
  method KeptLines(lines: seq<string>, lo: int, hi: int) returns (kept: seq<string>)
    requires 0 <= lo <= hi + 1 <= |lines|
    ensures kept == Without(lines[lo..hi + 1], ShouldRemove)
  {
    kept := [];
    var i := lo;
    while i <= hi
      invariant lo <= i <= hi + 1
      invariant kept == Without(lines[lo..i], ShouldRemove)
    {
      var line := lines[i];
      WithoutStep(lines, lo, i, ShouldRemove);
      var remove := ShouldRemoveFromLocation(line);
      if !remove {
        kept := kept + [line];
      }
      i := i + 1;
    }
  }

  lemma ClearInject(locationLine: string, indent: string, cfg: HomepageConfig)
    requires indent == LeadingBlanks(locationLine) + "    "
    ensures [indent + TryFiles] == Inject(locationLine, cfg, true)
  {
  }

  lemma ProxyInject(locationLine: string, indent: string, cfg: HomepageConfig)
    requires indent == LeadingBlanks(locationLine) + "    "
    ensures [
        indent + ProxyInclude,
        indent + ResolverInclude,
        indent + ("set $upstream_app " + cfg.upstreamApp + ";"),
        indent + ("set $upstream_port " + IntToString(cfg.upstreamPort) + ";"),
        indent + ("set $upstream_proto " + cfg.upstreamProto + ";"),
        indent + ProxyPass
      ] == Inject(locationLine, cfg, false)
  {
  }

  /** The pieces `updateLocationRoot` puts together make up the specified lines. */
  lemma AssembleSpec(lines: seq<string>, loc: Block, cfg: HomepageConfig, clear: bool,
                     kept: seq<string>, ins: int, inject: seq<string>)
    requires 0 <= loc.start && loc.end < |lines| && loc.end - loc.start >= 2
    requires kept == Without(lines[loc.start + 1..loc.end], ShouldRemove)
    requires ins == InsertionPoint(kept)
    requires inject == Inject(lines[loc.start], cfg, clear)
    ensures 0 <= ins <= |kept|
    ensures lines[..loc.start + 1] + (kept[..ins] + inject + kept[ins..]) + lines[loc.end..]
            == LocationRootSpec(lines, loc, cfg, clear)
  {
  }

  // ---------------------------------------------------------------------------
  // What the rewrite promises

  /** The new body is the kept lines with the shape inserted before the first significant one, or at the end. */
  lemma {:induction false} NewBodyInsertion(body: seq<string>, locationLine: string, cfg: HomepageConfig, clear: bool)
    ensures var kept := Without(body, ShouldRemove);
            var ins := InsertionPoint(kept);
            && NewBody(body, locationLine, cfg, clear) == kept[..ins] + Inject(locationLine, cfg, clear) + kept[ins..]
            && (forall j :: 0 <= j < ins ==> !Significant(kept[j]))
            && (ins < |kept| ==> Significant(kept[ins]))
  {
    var kept := Without(body, ShouldRemove);
    var ins := FirstFlaggedSplit(kept, Significant);
  }

  /** The insertion point for a flag: everything before it unflagged, the line at it flagged. */
  lemma {:induction false} FirstFlaggedSplit(lines: seq<string>, f: string -> bool) returns (ins: int)
    ensures var p := FirstTrue(LineFlags(lines, f), 0, |lines| - 1);
            ins == if p < 0 then |lines| else p
    ensures 0 <= ins <= |lines|
    ensures forall j :: 0 <= j < ins ==> !f(lines[j])
    ensures ins < |lines| ==> f(lines[ins])
  {
    var p := FirstTrue(LineFlags(lines, f), 0, |lines| - 1);
    ins := if p < 0 then |lines| else p;
    forall j | 0 <= j < |lines| ensures LineFlags(lines, f)[j] == f(lines[j]) {
      LineFlagsAt(lines, f, j);
    }
  }

  /** Filtering the new body gives back the filtered old body: kept lines stay, in order, and nothing else does. */
  lemma {:induction false} NewBodyKeeps(body: seq<string>, locationLine: string, cfg: HomepageConfig, clear: bool)
    ensures Without(NewBody(body, locationLine, cfg, clear), ShouldRemove) == Without(body, ShouldRemove)
  {
    var kept := Without(body, ShouldRemove);
    var ins := InsertionPoint(kept);
    InjectRemovable(locationLine, cfg, clear);
    WithoutInsertRemovable(kept, ins, Inject(locationLine, cfg, clear), ShouldRemove);
  }

  /** Filtering out lines that are all filtered, inserted among lines that all stay, gives back those lines. */
  lemma {:induction false} WithoutInsertRemovable(kept: seq<string>, ins: int, inj: seq<string>, f: string -> bool)
    requires 0 <= ins <= |kept|
    requires forall i :: 0 <= i < |kept| ==> !f(kept[i])
    requires forall i :: 0 <= i < |inj| ==> f(inj[i])
    ensures Without(kept[..ins] + inj + kept[ins..], f) == kept
  {
    var a := kept[..ins];
    var c := kept[ins..];
    assert Without(a, f) == a by { WithoutNone(a, f); }
    assert Without(c, f) == c by { WithoutNone(c, f); }
    assert Without(a + inj, f) == a by {
      WithoutAppend(a, inj, f);
      WithoutAll(inj, f);
    }
    WithoutAppend(a + inj, c, f);
    assert a + c == kept;
  }

  /**
   * Rewriting a body already rewritten is rewriting the original: the second
   * pass strips the first pass's shape and puts its own in the same place.
   */
  lemma {:induction false} NewBodyReapply(body: seq<string>, locationLine: string,
                       cfg1: HomepageConfig, clear1: bool, cfg2: HomepageConfig, clear2: bool)
    ensures NewBody(NewBody(body, locationLine, cfg1, clear1), locationLine, cfg2, clear2)
            == NewBody(body, locationLine, cfg2, clear2)
  {
    NewBodyKeeps(body, locationLine, cfg1, clear1);
  }

  /** The block the rewritten location occupies. */
  function Relocated(lines: seq<string>, loc: Block, cfg: HomepageConfig, clear: bool): Block
    requires 0 <= loc.start < loc.end < |lines|
  {
    if loc.end - loc.start < 2 then loc
    else Block(loc.start, loc.start + 1 + |NewBody(lines[loc.start + 1..loc.end], lines[loc.start], cfg, clear)|)
  }

  /**
   * Only the body of the location changes: the lines up to and including the
   * `location` line, and those from its closing line on, are the same, and the
   * body between them is the new body.
   */
  lemma {:induction false} LocationRootFrame(lines: seq<string>, loc: Block, cfg: HomepageConfig, clear: bool)
    requires 0 <= loc.start < loc.end < |lines|
    ensures var r := LocationRootSpec(lines, loc, cfg, clear);
            var loc1 := Relocated(lines, loc, cfg, clear);
            && loc1.start == loc.start && loc1.start < loc1.end < |r|
            && |r| - loc1.end == |lines| - loc.end
            && r[..loc.start + 1] == lines[..loc.start + 1]
            && r[loc1.end..] == lines[loc.end..]
            && (loc.end - loc.start >= 2 ==>
                  r[loc.start + 1..loc1.end] == NewBody(lines[loc.start + 1..loc.end], lines[loc.start], cfg, clear))
  {
    if loc.end - loc.start >= 2 {
      var a := lines[..loc.start + 1];
      var nb := NewBody(lines[loc.start + 1..loc.end], lines[loc.start], cfg, clear);
      var c := lines[loc.end..];
      var r := a + nb + c;
      assert r[..loc.start + 1] == a;
      assert r[loc.start + 1 + |nb|..] == c;
      assert r[loc.start + 1..loc.start + 1 + |nb|] == nb;
    }
  }

  /**
   * Running `updateLocationRoot` again on the rewritten location gives what a
   * single run with the second configuration gives: rewriting is idempotent,
   * and clearing after setting is clearing.
   */
  lemma {:induction false} LocationRootReapply(lines: seq<string>, loc: Block,
                            cfg1: HomepageConfig, clear1: bool, cfg2: HomepageConfig, clear2: bool)
    requires 0 <= loc.start < loc.end < |lines|
    ensures var r := LocationRootSpec(lines, loc, cfg1, clear1);
            var loc1 := Relocated(lines, loc, cfg1, clear1);
            && 0 <= loc1.start < loc1.end < |r|
            && LocationRootSpec(r, loc1, cfg2, clear2) == LocationRootSpec(lines, loc, cfg2, clear2)
  {
    LocationRootFrame(lines, loc, cfg1, clear1);
    if loc.end - loc.start >= 2 {
      var r := LocationRootSpec(lines, loc, cfg1, clear1);
      var loc1 := Relocated(lines, loc, cfg1, clear1);
      var body := lines[loc.start + 1..loc.end];
      assert r[loc.start] == lines[loc.start] by {
        assert r[loc.start] == r[..loc.start + 1][loc.start];
      }
      NewBodyReapply(body, lines[loc.start], cfg1, clear1, cfg2, clear2);
      assert loc1.end - loc1.start >= 2;
    }
  }
}
