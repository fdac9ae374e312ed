/**
 * The document pipeline of the default-site editor
 * (internal/nginx/default_site.go, `updateDefaultSiteConf`): split the text into
 * lines, find the `server` blocks, pick the `listen 443 … default_server` block
 * and the `listen 80 … default_server` one, rewrite `server_name` in both, and
 * rewrite the first `location /` inside the 443 block.
 */
module Homepage {
  import opened Wrappers
  import opened Text
  import opened BlockLocator
  import opened DefaultSite
  import opened LocationRoot

  /** What `updateDefaultSiteConf` and the editor report when they stop. */
  datatype EditError =
    | DomainRequired
    | UpstreamAppRequired
    | InvalidPort(port: int)
    | InvalidProto(proto: string)
    | InvalidDomain(domain: string)
    | ReadFailed(path: string)
    | Locate(error: LocateError)
    | MainServerNotFound
    | LocationRootNotFound

  // ---------------------------------------------------------------------------
  // `containsNonComment`

  /** A significant line whose trimmed text holds `needle`. */
  predicate Hit(line: string, needle: string) {
    Significant(line) && Contains(TrimSpace(line), needle)
  }

  /** Some line of `lines` is a hit for `needle`. */
  predicate HasNonComment(lines: seq<string>, needle: string) {
    exists i :: 0 <= i < |lines| && Hit(lines[i], needle)
  }

  /** `containsNonComment`: the body's lines are searched in turn, skipping blank and `#` lines. */
  method ContainsNonComment(body: string, needle: string) returns (r: bool)
    ensures r == HasNonComment(Split(body, '\n'), needle)
  {
    var parts := Split(body, '\n');
    for i := 0 to |parts|
      invariant forall j :: 0 <= j < i ==> !Hit(parts[j], needle)
    {
      var s := TrimSpace(parts[i]);
      assert Hit(parts[i], needle) == (s != "" && !HasPrefix(s, "#") && Contains(s, needle));
      if s == "" || HasPrefix(s, "#") {
        continue;
      }
      if Contains(s, needle) {
        return true;
      }
    }
    return false;
  }

  /** Searching the joined text of lines that hold no newline is searching the lines. */
  lemma NonCommentOfJoined(lines: seq<string>, needle: string)
    requires |lines| >= 1
    requires forall i :: 0 <= i < |lines| ==> '\n' !in lines[i]
    ensures HasNonComment(Split(Join(lines, "\n"), '\n'), needle) == HasNonComment(lines, needle)
  {
    SplitJoin(lines, '\n');
  }

  /** A substring of a substring is a substring. */
  lemma {:induction false} ContainsTransitive(s: string, m: string, n: string)
    requires Contains(s, m) && Contains(m, n)
    ensures Contains(s, n)
  {
    ContainsAt(s, m);
    ContainsAt(m, n);
    var k :| OccursAt(s, m, k);
    var l :| OccursAt(m, n, l);
    forall j | 0 <= j < |n| ensures s[k + l + j] == n[j] {
      assert s[k..k + |m|][l + j] == m[l + j];
      assert m[l..l + |n|][j] == m[l + j];
    }
    assert s[k + l..k + l + |n|] == n;
    assert OccursAt(s, n, k + l);
    ContainsAt(s, n);
  }

  /**
   * The test is a substring test, so a line holding a longer needle also holds a
   * shorter one inside it: `listen 8080` counts as `listen 80`.
   */
  lemma NonCommentWeaker(lines: seq<string>, longer: string, needle: string)
    requires Contains(longer, needle)
    requires HasNonComment(lines, longer)
    ensures HasNonComment(lines, needle)
  {
    var i :| 0 <= i < |lines| && Hit(lines[i], longer);
    ContainsTransitive(TrimSpace(lines[i]), longer, needle);
  }

  /** `listen 8080` holds `listen 80`. */
  lemma Listen8080HoldsListen80()
    ensures Contains("listen 8080", Listen80)
  {
    assert OccursAt("listen 8080", Listen80, 0);
    ContainsAt("listen 8080", Listen80);
  }

  // ---------------------------------------------------------------------------
  // Choosing the server blocks

  const DefaultServer: string := "default_server"
  const Listen443: string := "listen 443"
  const Listen80: string := "listen 80"

  /** The text of a block, its lines joined back together. */
  function BlockText(lines: seq<string>, b: Block): string
    requires 0 <= b.start <= b.end < |lines|
  {
    Join(lines[b.start..b.end + 1], "\n")
  }

  /** A block whose text holds `default_server` and `listen` outside comments. */
  predicate Qualifies(lines: seq<string>, b: Block, listen: string) {
    && 0 <= b.start <= b.end < |lines|
    && HasNonComment(Split(BlockText(lines, b), '\n'), DefaultServer)
    && HasNonComment(Split(BlockText(lines, b), '\n'), listen)
  }

  /** The test for the main (`listen 443`) block. */
  function MainTest(lines: seq<string>): Block -> bool {
    b => Qualifies(lines, b, Listen443)
  }

  /** The test for the redirect (`listen 80`) block. */
  function RedirectTest(lines: seq<string>): Block -> bool {
    b => Qualifies(lines, b, Listen80)
  }

  /** The index of the last block passing `f`, or -1. */
  function LastWhere(bs: seq<Block>, f: Block -> bool): (k: int)
    ensures -1 <= k < |bs|
    ensures k >= 0 ==> f(bs[k])
    ensures forall j :: k < j < |bs| ==> !f(bs[j])
  {
    if bs == [] then -1
    else if f(bs[|bs| - 1]) then |bs| - 1
    else LastWhere(bs[..|bs| - 1], f)
  }

  /**
   * The loop over the server blocks in `updateDefaultSiteConf`: the main block
   * and the redirect block are each the LAST block that qualifies.
   */
  method SelectServers(lines: seq<string>, blocks: seq<Block>) returns (main: int, redirect: int)
    requires forall i :: 0 <= i < |blocks| ==> 0 <= blocks[i].start <= blocks[i].end < |lines|
    ensures main == LastWhere(blocks, MainTest(lines))
    ensures redirect == LastWhere(blocks, RedirectTest(lines))
  {
    main, redirect := -1, -1;
    for i := 0 to |blocks|
      invariant main == LastWhere(blocks[..i], MainTest(lines))
      invariant redirect == LastWhere(blocks[..i], RedirectTest(lines))
    {
      assert blocks[..i + 1][..i] == blocks[..i];
      var b := blocks[i];
      var body := Join(lines[b.start..b.end + 1], "\n");
      var isDefault := ContainsNonComment(body, DefaultServer);
      if !isDefault {
        continue;
      }
      var has443 := ContainsNonComment(body, Listen443);
      var isDefault2 := ContainsNonComment(body, DefaultServer);
      if has443 && isDefault2 {
        main := i;
      }
      var has80 := ContainsNonComment(body, Listen80);
      var isDefault3 := ContainsNonComment(body, DefaultServer);
      if has80 && isDefault3 {
        redirect := i;
      }
    }
    assert blocks[..|blocks|] == blocks;
  }

  // ---------------------------------------------------------------------------
  // `updateDefaultSiteConf`

  /** The `server_name` rewrites: the redirect block's first, then the main block's. */
  function Renamed(lines: seq<string>, main: Block, redirect: Option<Block>, name: Option<string>): (r: seq<string>)
    requires 0 <= main.start && main.end < |lines|
    requires redirect.Some? ==> 0 <= redirect.value.start && redirect.value.end < |lines|
    ensures |r| == |lines|
  {
    match name
    case None => lines
    case Some(n) =>
      var named := if redirect.Some? then ServerNameSpec(lines, redirect.value, n) else lines;
      ServerNameSpec(named, main, n)
  }

  /**
   * The two `setServerName` calls of `updateDefaultSiteConf`, which overwrite
   * the shared line slice in place.
   */
  method SetServerNames(lines: seq<string>, main: Block, redirect: Option<Block>, name: Option<string>)
    returns (named: seq<string>)
    requires 0 <= main.start && main.end < |lines|
    requires redirect.Some? ==> 0 <= redirect.value.start && redirect.value.end < |lines|
    ensures named == Renamed(lines, main, redirect, name)
  {
    var buf := new string[|lines|](i requires 0 <= i < |lines| => lines[i]);
    assert buf[..] == lines;
    if name.Some? {
      if redirect.Some? {
        SetServerName(buf, redirect.value, name.value);
      }
      SetServerName(buf, main, name.value);
    }
    named := buf[..];
  }

  /** The text `updateDefaultSiteConf` produces, or why it stops. */
  function UpdateSpec(input: string, cfg: HomepageConfig, clear: bool, name: Option<string>): Result<string, EditError> {
    var lines := SplitLinesPreserve(input);
    match FindBlocksSpec(lines, ServerStart, 0, |lines| - 1)
    case Err(e) => Err(Locate(e))
    case Ok(servers) => UpdateServers(lines, servers, HasSuffix(ReplaceCRLF(input), "\n"), cfg, clear, name)
  }

  /** The stages after the server blocks are found: choose, rename, rewrite. */
  function UpdateServers(lines: seq<string>, servers: seq<Block>, trailing: bool,
                         cfg: HomepageConfig, clear: bool, name: Option<string>): Result<string, EditError> {
    var mk := LastWhere(servers, MainTest(lines));
    if mk < 0 then Err(MainServerNotFound)
    else
      var main := servers[mk];
      var rk := LastWhere(servers, RedirectTest(lines));
      var redirect := if rk < 0 then None else Some(servers[rk]);
      UpdateMain(Renamed(lines, main, redirect, name), main, trailing, cfg, clear)
  }

  /** The last stage: the first `location /` of the main block is rewritten. */
  function UpdateMain(named: seq<string>, main: Block, trailing: bool,
                      cfg: HomepageConfig, clear: bool): Result<string, EditError> {
    FindBlocksSound(named, LocationRootStart, main.start, main.end);
    match FindBlocksSpec(named, LocationRootStart, main.start, main.end)
    case Err(e) => Err(Locate(e))
    case Ok(locs) =>
      if locs == [] then Err(LocationRootNotFound)
      else Ok(Render(LocationRootSpec(named, locs[0], cfg, clear), trailing))
  }

  /** `updateDefaultSiteConf`. */
  method UpdateDefaultSiteConf(input: string, cfg: HomepageConfig, clear: bool, name: Option<string>)
    returns (r: Result<string, EditError>)
    ensures r == UpdateSpec(input, cfg, clear, name)
  {
    var normalized := ReplaceCRLF(input);
    var trailing := HasSuffix(normalized, "\n");
    var lines := SplitLinesPreserve(input);

    var found := FindBlocksInRange(lines, ServerStart, 0, |lines| - 1);
    if found.Err? {
      return Err(Locate(found.error));
    }
    var servers := found.value;
    assert forall i :: 0 <= i < |servers| ==> 0 <= servers[i].start <= servers[i].end < |lines| by {
      FindBlocksSound(lines, ServerStart, 0, |lines| - 1);
    }
    r := ServerStage(lines, servers, trailing, cfg, clear, name);
  }

  /** The middle of `updateDefaultSiteConf`: choose the main and redirect blocks, rename, rewrite. */
  method ServerStage(lines: seq<string>, servers: seq<Block>, trailing: bool,
                     cfg: HomepageConfig, clear: bool, name: Option<string>)
    returns (r: Result<string, EditError>)
    requires forall i :: 0 <= i < |servers| ==> 0 <= servers[i].start <= servers[i].end < |lines|
    ensures r == UpdateServers(lines, servers, trailing, cfg, clear, name)
  {
    var mk, rk := SelectServers(lines, servers);
    if mk < 0 {
      return Err(MainServerNotFound);
    }
    var main := servers[mk];
    var redirect := if rk < 0 then None else Some(servers[rk]);
    var named := SetServerNames(lines, main, redirect, name);
    r := LocationStage(named, main, trailing, cfg, clear);
  }

  /** The tail of `updateDefaultSiteConf`, from the `location /` search to the joined text. */
  method LocationStage(named: seq<string>, main: Block, trailing: bool, cfg: HomepageConfig, clear: bool)
    returns (r: Result<string, EditError>)
    ensures r == UpdateMain(named, main, trailing, cfg, clear)
  {
    var locs := FindBlocksInRange(named, LocationRootStart, main.start, main.end);
    if locs.Err? {
      return Err(Locate(locs.error));
    }
    if |locs.value| == 0 {
      return Err(LocationRootNotFound);
    }
    FindBlocksSound(named, LocationRootStart, main.start, main.end);
    var updated := UpdateLocationRoot(named, locs.value[0], cfg, clear);
    var out := Join(updated, "\n");
    if trailing {
      out := out + "\n";
    } else {
      assert out == out + "";
    }
    return Ok(out);
  }
}
