/**
 * The site registry of internal/nginx/manager.go: the `*.subdomain.conf` and
 * `*.subdomain.conf.disabled` files of SWAG's proxy-confs directory, what
 * container and port each one proxies to, and enabling or disabling a site by
 * renaming its file.
 */
module Manager {
  import opened Wrappers
  import opened Text
  import opened Sorting
  import opened Dir
  import opened DefaultSite

  datatype SiteStatus = Enabled | Disabled

  /** One site: its subdomain, its file, its status and the proxy target read from the file. */
  datatype SiteConfig = SiteConfig(
    name: string,
    filename: string,
    status: SiteStatus,
    containerName: string,
    containerPort: string)

  const EnabledSuffix: string := ".subdomain.conf"
  const DisabledSuffix: string := ".subdomain.conf.disabled"

  /** The suffix a file of the given status carries. */
  function SuffixOf(status: SiteStatus): string {
    if status == Enabled then EnabledSuffix else DisabledSuffix
  }

  // ---------------------------------------------------------------------------
  // Reading the lines of a file (`bufio.Scanner` with `ScanLines`)

  /** One trailing carriage return dropped. */
  function DropCR(s: string): string {
    if s != [] && s[|s| - 1] == '\r' then s[..|s| - 1] else s
  }

  function DropCRs(parts: seq<string>): (r: seq<string>)
    ensures |r| == |parts|
    ensures forall i :: 0 <= i < |parts| ==> r[i] == DropCR(parts[i])
  {
    if parts == [] then [] else [DropCR(parts[0])] + DropCRs(parts[1..])
  }

  /**
   * The tokens `ScanLines` yields: none for an empty file; otherwise the text
   * split at each newline, a final newline ending the last line rather than
   * starting another, and one carriage return dropped from each line's end.
   */
  function ScanLines(text: string): seq<string> {
    if text == [] then [] else DropCRs(Split(TrimSuffix(text, "\n"), '\n'))
  }

  // ---------------------------------------------------------------------------
  // The expressions `set\s+\$upstream_app\s+([^;]+);` and `set\s+\$upstream_port\s+([^;]+);`

  const AppKey: string := "$upstream_app"
  const PortKey: string := "$upstream_port"

  /**
   * The capture of `set\s+<key>\s+([^;]+);` when the match starts at `p`. The
   * first `\s+` must stop at the `$` of the key. The second takes every white
   * space character, and `[^;]+` then runs to the first `;`; only when that `;`
   * follows the spaces directly does the second `\s+` give back its last
   * character, which then is the whole capture.
   */
  function MatchAt(line: string, key: string, p: nat): (r: Option<string>)
    requires key != [] && key[0] == '$'
    ensures r.Some? ==> r.value != [] && ';' !in r.value
  {
    if p + 3 <= |line| && line[p] == 's' && line[p + 1] == 'e' && line[p + 2] == 't' then
      var b := SpaceEnd(line, p + 3);
      if b > p + 3 && b + |key| <= |line| && line[b..b + |key|] == key then
        var c0 := b + |key|;
        var c := SpaceEnd(line, c0);
        if c == c0 then None
        else
          var e := SemicolonFrom(line, c);
          if e < 0 then None
          else if e > c then
            assert forall j :: 0 <= j < e - c ==> line[c..e][j] == line[c + j];
            Some(line[c..e])
          else if c - c0 >= 2 then Some(line[c - 1..c])
          else None
      else None
    else None
  }

  /** The capture of the leftmost match starting at or after `p`. */
  function FirstCapture(line: string, key: string, p: nat): (r: Option<string>)
    requires key != [] && key[0] == '$'
    ensures r.Some? ==> r.value != [] && ';' !in r.value
    decreases |line| - p
  {
    if p >= |line| then None
    else
      match MatchAt(line, key, p)
      case Some(v) => Some(v)
      case None => FirstCapture(line, key, p + 1)
  }

  /** `FindStringSubmatch(line)[1]` when the expression matches the line. */
  function Capture(line: string, key: string): Option<string>
    requires key != [] && key[0] == '$'
  {
    FirstCapture(line, key, 0)
  }

  /** `key` starts at `b` right after a white space character. */
  predicate KeyAfterSpace(line: string, key: string, b: int) {
    1 <= b && b + |key| <= |line| && IsRegexSpace(line[b - 1]) && line[b..b + |key|] == key
  }

  /** A line where the key never follows white space past `p + 3` has no match from `p` on. */
  lemma {:induction false} NoCaptureFrom(line: string, key: string, p: nat)
    requires key != [] && key[0] == '$'
    requires forall b :: p + 4 <= b <= |line| ==> !KeyAfterSpace(line, key, b)
    ensures FirstCapture(line, key, p) == None
    decreases |line| - p
  {
    if p < |line| {
      if p + 3 <= |line| && line[p] == 's' && line[p + 1] == 'e' && line[p + 2] == 't' {
        var b := SpaceEnd(line, p + 3);
        if b > p + 3 && b + |key| <= |line| && line[b..b + |key|] == key {
          assert KeyAfterSpace(line, key, b);
        }
      }
      NoCaptureFrom(line, key, p + 1);
    }
  }

  /** A line without `$` has no match. */
  lemma {:induction false} NoDollarNoCapture(line: string, key: string)
    requires key != [] && key[0] == '$'
    requires '$' !in line
    ensures Capture(line, key) == None
  {
    forall b | 4 <= b <= |line| ensures !KeyAfterSpace(line, key, b) {
      if b < |line| && b + |key| <= |line| {
        assert line[b..b + |key|][0] == line[b] && line[b] != '$';
      }
    }
    NoCaptureFrom(line, key, 0);
  }

  /** A line where the key never follows white space has no match. */
  lemma CaptureNone(line: string, key: string)
    requires key != [] && key[0] == '$'
    requires forall b :: 0 <= b < |line| ==> !KeyAfterSpace(line, key, b)
    ensures Capture(line, key) == None
  {
    NoCaptureFrom(line, key, 0);
  }

  /** The key, which starts with `$`, starts nowhere in a stretch without `$`. */
  lemma DollarFree(line: string, key: string, lo: int, hi: int)
    requires key != [] && key[0] == '$'
    requires 0 <= lo <= hi <= |line| && '$' !in line[lo..hi]
    ensures forall b :: lo <= b < hi ==> !KeyAfterSpace(line, key, b)
  {
    forall b | lo <= b < hi ensures !KeyAfterSpace(line, key, b) {
      if b + |key| <= |line| {
        assert line[b..b + |key|][0] == line[b];
        assert line[lo..hi][b - lo] == line[b];
      }
    }
  }

  /**
   * A line with one `$`, which starts a word that differs from the key at
   * position `k`, has no match.
   */
  lemma OneDollarNoCapture(p: string, w: string, z: string, key: string, k: nat)
    requires key != [] && key[0] == '$'
    requires '$' !in p && '$' !in z
    requires w != [] && '$' !in w[1..]
    requires k < |key| && k < |w| && w[k] != key[k]
    ensures Capture(p + w + z, key) == None
  {
    var line := p + w + z;
    assert line[..|p|] == p;
    DollarFree(line, key, 0, |p|);
    assert line[|p| + k] == w[k];
    if |p| + |key| <= |line| {
      assert line[|p|..|p| + |key|][k] == line[|p| + k];
    }
    assert line[|p| + 1..] == w[1..] + z;
    DollarFree(line, key, |p| + 1, |line|);
    CaptureNone(line, key);
  }

  /**
   * A line with three `$` words, the first differing from the key at position
   * `k` and the other two right after a character that is not white space,
   * has no match.
   */
  lemma ThreeDollarsNoCapture(p: string, w1: string, w2: string, w3: string, key: string, k: nat)
    requires key != [] && key[0] == '$'
    requires '$' !in p
    requires w1 != [] && '$' !in w1[1..] && k < |key| && k < |w1| && w1[k] != key[k]
    requires !IsRegexSpace(w1[|w1| - 1]) && w2 != [] && '$' !in w2[1..]
    requires !IsRegexSpace(w2[|w2| - 1]) && w3 != [] && '$' !in w3[1..]
    ensures Capture(p + w1 + w2 + w3, key) == None
  {
    var line := p + w1 + w2 + w3;
    var b1, b2, b3 := |p|, |p| + |w1|, |p| + |w1| + |w2|;
    assert line[..b1] == p;
    DollarFree(line, key, 0, b1);
    assert line[b1 + k] == w1[k];
    if b1 + |key| <= |line| {
      assert line[b1..b1 + |key|][k] == line[b1 + k];
    }
    assert line[b1 + 1..b2] == w1[1..];
    DollarFree(line, key, b1 + 1, b2);
    assert line[b2 - 1] == w1[|w1| - 1];
    assert line[b2 + 1..b3] == w2[1..];
    DollarFree(line, key, b2 + 1, b3);
    assert line[b3 - 1] == w2[|w2| - 1];
    assert line[b3 + 1..] == w3[1..];
    DollarFree(line, key, b3 + 1, |line|);
    CaptureNone(line, key);
  }

  /** Positions before `q` that cannot start `set` are passed over. */
  lemma {:induction false} SkipToCapture(line: string, key: string, p: nat, q: nat)
    requires key != [] && key[0] == '$'
    requires p <= q < |line|
    requires forall j :: p <= j < q ==> line[j] != 's'
    ensures FirstCapture(line, key, p) == FirstCapture(line, key, q)
    decreases q - p
  {
    if p < q {
      assert FirstCapture(line, key, p) == FirstCapture(line, key, p + 1) by { PassOver(line, key, p); }
      SkipToCapture(line, key, p + 1, q);
    }
  }

  /** No match starts at a position that does not hold `s`. */
  lemma PassOver(line: string, key: string, p: nat)
    requires key != [] && key[0] == '$'
    requires p < |line| && line[p] != 's'
    ensures FirstCapture(line, key, p) == FirstCapture(line, key, p + 1)
  {
    assert MatchAt(line, key, p) == None;
  }

  /** The match at `p`, from the positions where its parts begin and end. */
  lemma {:induction false} MatchAtParts(line: string, key: string, p: nat, b: nat, c0: nat, c: nat, e: nat)
    requires key != [] && key[0] == '$'
    requires p + 3 < b && b + |key| == c0 < c < e < |line|
    requires line[p] == 's' && line[p + 1] == 'e' && line[p + 2] == 't'
    requires forall j :: p + 3 <= j < b ==> IsRegexSpace(line[j])
    requires line[b..c0] == key
    requires forall j :: c0 <= j < c ==> IsRegexSpace(line[j])
    requires !IsRegexSpace(line[c])
    requires forall j :: c <= j < e ==> line[j] != ';'
    requires line[e] == ';'
    ensures MatchAt(line, key, p) == Some(line[c..e])
  {
    assert !IsRegexSpace(line[b]) by {
      assert line[b..c0][0] == line[b];
    }
    SpaceEndAt(line, p + 3, b);
    SpaceEndAt(line, c0, c);
    SemicolonAt(line, c, e);
    assert b + |key| == c0 && line[b..b + |key|] == key;
  }

  /**
   * `pad + "set" + sp + key + sp2 + v + ";" + rest` yields `v` when `pad` holds no
   * `s`, both runs of white space are non-empty, and `v` is non-empty, holds no
   * `;` and does not start with white space.
   */
  lemma {:induction false} CaptureOfDirective(pad: string, sp: string, key: string, sp2: string, v: string, rest: string)
    requires key != [] && key[0] == '$'
    requires forall j :: 0 <= j < |pad| ==> pad[j] != 's'
    requires sp != [] && forall j :: 0 <= j < |sp| ==> IsRegexSpace(sp[j])
    requires sp2 != [] && forall j :: 0 <= j < |sp2| ==> IsRegexSpace(sp2[j])
    requires v != [] && ';' !in v && !IsRegexSpace(v[0])
    ensures Capture(pad + "set" + sp + key + sp2 + v + ";" + rest, key) == Some(v)
  {
    var line := pad + "set" + sp + key + sp2 + v + ";" + rest;
    var p := |pad|;
    var b := p + 3 + |sp|;
    var c0 := b + |key|;
    var c := c0 + |sp2|;
    var e := c + |v|;
    assert line == pad + ("set" + (sp + (key + (sp2 + (v + (";" + rest))))));
    forall j | 0 <= j < p ensures line[j] == pad[j] && line[j] != 's' {
    }
    assert line[p] == 's' && line[p + 1] == 'e' && line[p + 2] == 't';
    forall j | p + 3 <= j < b ensures IsRegexSpace(line[j]) {
      assert line[j] == sp[j - p - 3];
    }
    assert line[b..c0] == key;
    forall j | c0 <= j < c ensures IsRegexSpace(line[j]) {
      assert line[j] == sp2[j - c0];
    }
    assert line[c..e] == v;
    forall j | c <= j < e ensures line[j] != ';' {
      assert line[j] == v[j - c];
    }
    assert line[c] == v[0];
    assert line[e] == ';';
    MatchAtParts(line, key, p, b, c0, c, e);
    SkipToCapture(line, key, 0, p);
  }

  // ---------------------------------------------------------------------------
  // `parseConfigDetails`

  /** The trimmed capture of the last line that matches, or `init` when none does. */
  function Field(lines: seq<string>, key: string, init: string): string
    requires key != [] && key[0] == '$'
  {
    if lines == [] then init
    else
      match Capture(lines[|lines| - 1], key)
      case Some(v) => TrimSpace(v)
      case None => Field(lines[..|lines| - 1], key, init)
  }

  /** One more line: its capture, if any, replaces the field. */
  lemma FieldSnoc(lines: seq<string>, i: int, key: string, init: string)
    requires key != [] && key[0] == '$'
    requires 0 <= i < |lines|
    ensures Field(lines[..i + 1], key, init) ==
              match Capture(lines[i], key)
              case Some(v) => TrimSpace(v)
              case None => Field(lines[..i], key, init)
  {
    assert lines[..i + 1][..i] == lines[..i];
    assert lines[..i + 1][i] == lines[i];
  }

  /** The last matching line decides the field; the lines before it do not matter. */
  lemma {:induction false} FieldLastMatch(lines: seq<string>, key: string, init: string, k: int, v: string)
    requires key != [] && key[0] == '$'
    requires 0 <= k < |lines| && Capture(lines[k], key) == Some(v)
    requires forall j :: k < j < |lines| ==> Capture(lines[j], key) == None
    ensures Field(lines, key, init) == TrimSpace(v)
    decreases |lines|
  {
    if k < |lines| - 1 {
      var pre := lines[..|lines| - 1];
      assert pre[k] == lines[k];
      FieldLastMatch(pre, key, init, k, v);
    }
  }

  /** Without any matching line the field keeps its value. */
  lemma {:induction false} FieldNoMatch(lines: seq<string>, key: string, init: string)
    requires key != [] && key[0] == '$'
    requires forall j :: 0 <= j < |lines| ==> Capture(lines[j], key) == None
    ensures Field(lines, key, init) == init
    decreases |lines|
  {
    if lines != [] {
      FieldNoMatch(lines[..|lines| - 1], key, init);
    }
  }

  /** Lines after the last match change nothing. */
  lemma {:induction false} FieldUnmatchedTail(lines: seq<string>, tail: seq<string>, key: string, init: string)
    requires key != [] && key[0] == '$'
    requires forall j :: 0 <= j < |tail| ==> Capture(tail[j], key) == None
    ensures Field(lines + tail, key, init) == Field(lines, key, init)
    decreases |tail|
  {
    if tail != [] {
      var t := tail[..|tail| - 1];
      assert (lines + tail)[..|lines + tail| - 1] == lines + t;
      assert (lines + tail)[|lines + tail| - 1] == tail[|tail| - 1];
      assert Capture(tail[|tail| - 1], key) == None;
      assert Field(lines + tail, key, init) == Field(lines + t, key, init);
      FieldUnmatchedTail(lines, t, key, init);
    } else {
      assert lines + tail == lines;
    }
  }

  /** The record after `parseConfigDetails`: a file that cannot be read leaves it as it was. */
  function Details(config: SiteConfig, node: Node): SiteConfig {
    match node
    case File(text) =>
      var lines := ScanLines(text);
      config.(containerName := Field(lines, AppKey, config.containerName),
              containerPort := Field(lines, PortKey, config.containerPort))
    case _ => config
  }

  /** `parseConfigDetails`: the file is scanned line by line, each match overwriting its field. */
  method ParseConfigDetails(config: SiteConfig, node: Node) returns (r: SiteConfig)
    ensures r == Details(config, node)
  {
    r := config;
    if !node.File? {
      return;
    }
    var lines := ScanLines(node.text);
    for i := 0 to |lines|
      invariant r == config.(containerName := Field(lines[..i], AppKey, config.containerName),
                             containerPort := Field(lines[..i], PortKey, config.containerPort))
    {
      FieldSnoc(lines, i, AppKey, config.containerName);
      FieldSnoc(lines, i, PortKey, config.containerPort);
      var line := lines[i];
      var app := Capture(line, AppKey);
      if app.Some? {
        r := r.(containerName := TrimSpace(app.value));
      }
      var port := Capture(line, PortKey);
      if port.Some? {
        r := r.(containerPort := TrimSpace(port.value));
      }
    }
    assert lines[..|lines|] == lines;
  }

  // ---------------------------------------------------------------------------
  // `ListSites`

  datatype ManagerError =
    | ReadDirFailed
    | SiteNotFound(name: string)
    | RenameFailed(from: string, to: string)

  /** The record an entry of the directory gives, if any. */
  function Record(e: DirEntry): Option<SiteConfig> {
    if e.node.Folder? then None
    else if HasSuffix(e.name, EnabledSuffix) then
      Some(Details(SiteConfig(TrimSuffix(e.name, EnabledSuffix), e.name, Enabled, "", ""), e.node))
    else if HasSuffix(e.name, DisabledSuffix) then
      Some(Details(SiteConfig(TrimSuffix(e.name, DisabledSuffix), e.name, Disabled, "", ""), e.node))
    else None
  }

  function RecordSeq(e: DirEntry): seq<SiteConfig> {
    match Record(e)
    case Some(r) => [r]
    case None => []
  }

  /** The records of the listing, in its order. */
  function Sites(es: seq<DirEntry>): seq<SiteConfig> {
    if es == [] then [] else RecordSeq(es[0]) + Sites(es[1..])
  }

  /** What `ListSites` returns for the state of the directory. */
  function ListSpec(d: DirState): Result<seq<SiteConfig>, ManagerError> {
    match d
    case Missing => Ok([])
    case Unreadable => Err(ReadDirFailed)
    case Present(es) => Ok(Sites(es))
  }

  lemma {:induction false} SitesSnoc(es: seq<DirEntry>, e: DirEntry)
    ensures Sites(es + [e]) == Sites(es) + RecordSeq(e)
    decreases |es|
  {
    if es == [] {
      assert Sites([e]) == RecordSeq(e) + Sites([]);
    } else {
      assert (es + [e])[1..] == es[1..] + [e];
      SitesSnoc(es[1..], e);
    }
  }

  /** No suffix is the other's: a disabled name never ends like an enabled one. */
  lemma DisabledNotEnabled(sub: string)
    ensures !HasSuffix(sub + DisabledSuffix, EnabledSuffix)
    ensures HasSuffix(sub + DisabledSuffix, DisabledSuffix)
    ensures HasSuffix(sub + EnabledSuffix, EnabledSuffix)
  {
    var n := sub + DisabledSuffix;
    assert n[|n| - 1] == 'd';
    assert n[|n| - |EnabledSuffix|..][|EnabledSuffix| - 1] == n[|n| - 1];
    assert n[|n| - |DisabledSuffix|..] == DisabledSuffix;
    var m := sub + EnabledSuffix;
    assert m[|m| - |EnabledSuffix|..] == EnabledSuffix;
  }

  /**
   * Only files whose names end in one of the two suffixes give records; the
   * record's name is the file name without its suffix, its status is the one
   * the suffix says, and its proxy target is read from the file.
   */
  lemma RecordClassifies(e: DirEntry)
    ensures Record(e).Some? <==> !e.node.Folder? && (HasSuffix(e.name, EnabledSuffix) || HasSuffix(e.name, DisabledSuffix))
    ensures Record(e).Some? ==>
      var r := Record(e).value;
      && r.filename == e.name
      && r.name + SuffixOf(r.status) == e.name
      && (r.status == Enabled <==> HasSuffix(e.name, EnabledSuffix))
      && r == Details(r.(containerName := "", containerPort := ""), e.node)
  {
    if Record(e).Some? {
      var r := Record(e).value;
      var suffix := SuffixOf(r.status);
      assert e.name == e.name[..|e.name| - |suffix|] + e.name[|e.name| - |suffix|..];
    }
  }

  /** A record named `sub` comes from `sub.subdomain.conf` or `sub.subdomain.conf.disabled`. */
  lemma RecordNamed(e: DirEntry, sub: string)
    requires Record(e).Some? && Record(e).value.name == sub
    ensures e.name == sub + EnabledSuffix || e.name == sub + DisabledSuffix
  {
    RecordClassifies(e);
  }

  /** The entry under `sub + suffix` gives the record named `sub` of that suffix's status. */
  lemma RecordOfSuffix(sub: string, status: SiteStatus, node: Node)
    requires !node.Folder?
    ensures Record(DirEntry(sub + SuffixOf(status), node)) ==
      Some(Details(SiteConfig(sub, sub + SuffixOf(status), status, "", ""), node))
  {
    DisabledNotEnabled(sub);
    var n := sub + SuffixOf(status);
    assert n[..|n| - |SuffixOf(status)|] == sub;
  }

  /** The records are exactly those of the entries. */
  lemma {:induction false} SitesMembers(es: seq<DirEntry>, s: SiteConfig)
    ensures s in Sites(es) <==> exists i :: 0 <= i < |es| && Record(es[i]) == Some(s)
    decreases |es|
  {
    if es != [] {
      SitesMembers(es[1..], s);
      if s in Sites(es[1..]) {
        var i :| 0 <= i < |es[1..]| && Record(es[1..][i]) == Some(s);
        assert Record(es[i + 1]) == Some(s);
      }
      if exists i :: 0 <= i < |es| && Record(es[i]) == Some(s) {
        var i :| 0 <= i < |es| && Record(es[i]) == Some(s);
        if i > 0 {
          assert es[1..][i - 1] == es[i];
        }
      }
    }
  }

  /** A file the directory holds under a name whose record is `s` is listed as `s`. */
  lemma LookupListed(es: seq<DirEntry>, name: string, node: Node, s: SiteConfig)
    requires Lookup(es, name) == Some(node) && Record(DirEntry(name, node)) == Some(s)
    ensures s in Sites(es)
  {
    var i :| 0 <= i < |es| && es[i] == DirEntry(name, node);
    SitesMembers(es, s);
  }

  /** The records come in the directory's order, so their file names strictly increase. */
  lemma {:induction false} SitesSorted(es: seq<DirEntry>)
    requires Ordered(es)
    ensures forall i, j :: 0 <= i < j < |Sites(es)| ==> Less(Sites(es)[i].filename, Sites(es)[j].filename)
    decreases |es|
  {
    if es != [] {
      SitesSorted(es[1..]);
      var rest := Sites(es[1..]);
      var head := RecordSeq(es[0]);
      if head != [] {
        forall j | 0 <= j < |rest| ensures Less(es[0].name, rest[j].filename) {
          SitesMembers(es[1..], rest[j]);
          var k :| 0 <= k < |es[1..]| && Record(es[1..][k]) == Some(rest[j]);
          RecordClassifies(es[k + 1]);
        }
        RecordClassifies(es[0]);
      }
    }
  }

  // ---------------------------------------------------------------------------
  // `ToggleSite`

  function Flip(status: SiteStatus): SiteStatus {
    if status == Enabled then Disabled else Enabled
  }

  /** The index of the first record named `sub`, or -1. */
  function FirstNamed(sites: seq<SiteConfig>, sub: string): (k: int)
    ensures -1 <= k < |sites|
    ensures k >= 0 ==> sites[k].name == sub
    ensures forall j :: 0 <= j < |sites| && (k < 0 || j < k) ==> sites[j].name != sub
  {
    if sites == [] then -1
    else if sites[0].name == sub then 0
    else
      var k := FirstNamed(sites[1..], sub);
      if k < 0 then -1 else k + 1
  }

  /** The search loop of `ToggleSite`: the index of the first record named `sub`, or -1. */
  method FindNamed(sites: seq<SiteConfig>, sub: string) returns (target: int)
    ensures target == FirstNamed(sites, sub)
  {
    target := -1;
    for i := 0 to |sites|
      invariant target == -1 ==> forall j :: 0 <= j < i ==> sites[j].name != sub
      invariant target != -1 ==> target == FirstNamed(sites, sub)
    {
      if sites[i].name == sub {
        target := i;
        break;
      }
    }
  }

  /** The file name a site is renamed to: its name with the other status's suffix. */
  function Toggled(t: SiteConfig): string {
    t.name + SuffixOf(Flip(t.status))
  }

  /** The result of `ToggleSite(sub)` and the directory after it. */
  function ToggleSpec(d: DirState, sub: string): (Result<SiteStatus, ManagerError>, DirState) {
    match ListSpec(d)
    case Err(e) => (Err(e), d)
    case Ok(sites) =>
      var k := FirstNamed(sites, sub);
      if k < 0 then (Err(SiteNotFound(sub)), d)
      else
        var t := sites[k];
        match RenameSpec(d, t.filename, Toggled(t))
        case None => (Err(RenameFailed(t.filename, Toggled(t))), d)
        case Some(next) => (Ok(Flip(t.status)), next)
  }

  /** Any failure of `ToggleSite` leaves the directory as it was. */
  lemma ToggleErrorsChangeNothing(d: DirState, sub: string)
    requires ToggleSpec(d, sub).0.Err?
    ensures ToggleSpec(d, sub).1 == d
  {
  }

  /** The site is not found exactly when neither of its two files is there. */
  lemma ToggleNotFound(d: DirState, sub: string)
    ensures ToggleSpec(d, sub).0 == Err(SiteNotFound(sub)) <==>
      d.Missing? ||
      (d.Present? && forall i :: 0 <= i < |d.entries| ==>
        d.entries[i].node.Folder? || (d.entries[i].name != sub + EnabledSuffix && d.entries[i].name != sub + DisabledSuffix))
  {
    if d.Present? {
      var es := d.entries;
      var sites := Sites(es);
      var k := FirstNamed(sites, sub);
      if k >= 0 {
        SitesMembers(es, sites[k]);
        var i :| 0 <= i < |es| && Record(es[i]) == Some(sites[k]);
        RecordNamed(es[i], sub);
        RecordClassifies(es[i]);
      } else {
        forall i | 0 <= i < |es| && !es[i].node.Folder?
          ensures es[i].name != sub + EnabledSuffix && es[i].name != sub + DisabledSuffix
        {
          if es[i].name == sub + EnabledSuffix {
            RecordOfSuffix(sub, Enabled, es[i].node);
            SitesMembers(es, Record(es[i]).value);
          } else if es[i].name == sub + DisabledSuffix {
            RecordOfSuffix(sub, Disabled, es[i].node);
            SitesMembers(es, Record(es[i]).value);
          }
        }
      }
    }
  }

  /** When the only entry giving a record named `sub` is `f`, the first record named `sub` is `f`'s. */
  lemma {:induction false} FoundAt(es: seq<DirEntry>, sub: string, f: string, node: Node)
    requires Lookup(es, f) == Some(node)
    requires Record(DirEntry(f, node)).Some? && Record(DirEntry(f, node)).value.name == sub
    requires forall i :: 0 <= i < |es| && Record(es[i]).Some? && Record(es[i]).value.name == sub ==> es[i].name == f
    ensures var k := FirstNamed(Sites(es), sub); k >= 0 && Sites(es)[k] == Record(DirEntry(f, node)).value
    decreases |es|
  {
    var rest := es[1..];
    var head := RecordSeq(es[0]);
    assert Sites(es) == head + Sites(rest);
    if es[0].name == f {
      assert es[0] == DirEntry(f, node);
      assert head == [Record(DirEntry(f, node)).value];
    } else {
      assert head == [] || head[0].name != sub;
      forall i | 0 <= i < |rest| && Record(rest[i]).Some? && Record(rest[i]).value.name == sub
        ensures rest[i].name == f
      {
        assert rest[i] == es[i + 1];
      }
      assert Lookup(rest, f) == Some(node);
      FoundAt(rest, sub, f, node);
      ShiftFirstNamed(head, Sites(rest), sub);
    }
  }

  /** Records before the first one named `sub` shift its index. */
  lemma ShiftFirstNamed(head: seq<SiteConfig>, rest: seq<SiteConfig>, sub: string)
    requires |head| <= 1 && (head == [] || head[0].name != sub)
    requires FirstNamed(rest, sub) >= 0
    ensures FirstNamed(head + rest, sub) == |head| + FirstNamed(rest, sub)
  {
    if head != [] {
      assert (head + rest)[1..] == rest;
    } else {
      assert head + rest == rest;
    }
  }

  /**
   * A successful toggle renames the site's file to the other suffix, keeping its
   * contents, and returns the other status; every other name is untouched.
   */
  lemma ToggleRenames(es: seq<DirEntry>, sub: string, n: string)
    requires Ordered(es)
    requires ToggleSpec(Present(es), sub).0.Ok?
    ensures var k := FirstNamed(Sites(es), sub);
      var t := Sites(es)[k];
      var from := sub + SuffixOf(t.status);
      var to := sub + SuffixOf(Flip(t.status));
      && t.filename == from
      && ToggleSpec(Present(es), sub).0 == Ok(Flip(t.status))
      && ToggleSpec(Present(es), sub).1.Present?
      && Ordered(ToggleSpec(Present(es), sub).1.entries)
      && Lookup(ToggleSpec(Present(es), sub).1.entries, n) ==
           (if n == to then Lookup(es, from) else if n == from then None else Lookup(es, n))
  {
    var sites := Sites(es);
    var k := FirstNamed(sites, sub);
    var t := sites[k];
    SitesMembers(es, t);
    var i :| 0 <= i < |es| && Record(es[i]) == Some(t);
    RecordClassifies(es[i]);
    assert Toggled(t) != t.filename by {
      DisabledNotEnabled(sub);
    }
    RenameEffect(es, t.filename, Toggled(t), n);
  }

  /** What a successful toggle did, named: the old status and the node that moved. */
  lemma ToggleFacts(es: seq<DirEntry>, sub: string) returns (st: SiteStatus, node: Node)
    requires Ordered(es)
    requires ToggleSpec(Present(es), sub).0.Ok?
    ensures !node.Folder?
    ensures Lookup(es, sub + SuffixOf(st)) == Some(node)
    ensures ToggleSpec(Present(es), sub).0 == Ok(Flip(st))
    ensures ToggleSpec(Present(es), sub).1.Present?
    ensures var es1 := ToggleSpec(Present(es), sub).1.entries;
      && Ordered(es1)
      && forall n :: Lookup(es1, n) ==
           (if n == sub + SuffixOf(Flip(st)) then Some(node) else if n == sub + SuffixOf(st) then None else Lookup(es, n))
  {
    var sites := Sites(es);
    var t := sites[FirstNamed(sites, sub)];
    st := t.status;
    SitesMembers(es, t);
    var i :| 0 <= i < |es| && Record(es[i]) == Some(t);
    RecordClassifies(es[i]);
    node := es[i].node;
    LookupNames(es);
    ToggleRenames(es, sub, sub);
    var es1 := ToggleSpec(Present(es), sub).1.entries;
    forall n ensures Lookup(es1, n) ==
      (if n == sub + SuffixOf(Flip(st)) then Some(node) else if n == sub + SuffixOf(st) then None else Lookup(es, n))
    {
      ToggleRenames(es, sub, n);
    }
  }

  /** When only `sub + SuffixOf(st)` is absent, every record named `sub` is the other file's. */
  lemma OnlyOneNamed(es1: seq<DirEntry>, sub: string, st: SiteStatus)
    requires Lookup(es1, sub + SuffixOf(st)) == None
    ensures forall j :: 0 <= j < |es1| && Record(es1[j]).Some? && Record(es1[j]).value.name == sub ==>
      es1[j].name == sub + SuffixOf(Flip(st))
  {
    forall j | 0 <= j < |es1| && Record(es1[j]).Some? && Record(es1[j]).value.name == sub
      ensures es1[j].name == sub + SuffixOf(Flip(st))
    {
      RecordNamed(es1[j], sub);
      assert es1[j].name != sub + SuffixOf(st);
    }
  }

  /** Toggling back a site whose only file is under `sub + SuffixOf(Flip(st))`. */
  lemma ToggleBack(es1: seq<DirEntry>, sub: string, st: SiteStatus, node: Node)
    requires Ordered(es1) && !node.Folder?
    requires Lookup(es1, sub + SuffixOf(Flip(st))) == Some(node)
    requires Lookup(es1, sub + SuffixOf(st)) == None
    ensures ToggleSpec(Present(es1), sub) ==
      (Ok(st), Present(Put(Remove(es1, sub + SuffixOf(Flip(st))), sub + SuffixOf(st), node)))
  {
    var from := sub + SuffixOf(st);
    var to := sub + SuffixOf(Flip(st));
    OnlyOneNamed(es1, sub, st);
    RecordOfSuffix(sub, Flip(st), node);
    FoundAt(es1, sub, to, node);
    var sites := Sites(es1);
    var k := FirstNamed(sites, sub);
    var t := sites[k];
    assert t.filename == to && t.status == Flip(st) && t.name == sub;
    assert Toggled(t) == from;
    assert from != to by {
      DisabledNotEnabled(sub);
    }
    assert RenameSpec(Present(es1), to, from) == Some(Present(Put(Remove(es1, to), from, node)));
  }

  /**
   * Toggling a site twice gives back the directory it started from, provided
   * the site had only one of its two files.
   */
  lemma ToggleTwice(es: seq<DirEntry>, sub: string)
    requires Ordered(es)
    requires ToggleSpec(Present(es), sub).0.Ok?
    requires Lookup(es, sub + EnabledSuffix) == None || Lookup(es, sub + DisabledSuffix) == None
    ensures var (r1, d1) := ToggleSpec(Present(es), sub);
      ToggleSpec(d1, sub) == (Ok(Flip(r1.value)), Present(es))
  {
    var st, node := ToggleFacts(es, sub);
    var d1 := ToggleSpec(Present(es), sub).1;
    ToggleTwiceFrom(es, d1.entries, sub, st, node);
  }

  /** The second toggle, from the listing `es1` the first one left behind. */
  lemma ToggleTwiceFrom(es: seq<DirEntry>, es1: seq<DirEntry>, sub: string, st: SiteStatus, node: Node)
    requires Ordered(es) && Ordered(es1) && !node.Folder?
    requires Lookup(es, sub + EnabledSuffix) == None || Lookup(es, sub + DisabledSuffix) == None
    requires Lookup(es, sub + SuffixOf(st)) == Some(node)
    requires forall n :: Lookup(es1, n) ==
                         (if n == sub + SuffixOf(Flip(st)) then Some(node)
                          else if n == sub + SuffixOf(st) then None else Lookup(es, n))
    ensures ToggleSpec(Present(es1), sub) == (Ok(st), Present(es))
  {
    var from := sub + SuffixOf(st);
    var to := sub + SuffixOf(Flip(st));
    assert from != to by {
      DisabledNotEnabled(sub);
    }
    assert Lookup(es, to) == None;
    assert Lookup(es1, to) == Some(node) && Lookup(es1, from) == None;
    ToggleBack(es1, sub, st, node);
    RenameBackRestores(es, es1, from, to, node);
  }

  // ---------------------------------------------------------------------------
  // The `Manager` type

  /** The registry of the sites in one proxy-confs directory. */
  class Manager {
    const basePath: string

    /** `NewManager`. */
    constructor(basePath: string)
      ensures this.basePath == basePath
    {
      this.basePath := basePath;
    }

    /** `ListSites`: one record per qualifying file, in the order the directory lists them. */
    method ListSites(dir: Directory) returns (r: Result<seq<SiteConfig>, ManagerError>)
      ensures r == ListSpec(dir.state)
    {
      match dir.state
      case Missing =>
        return Ok([]);
      case Unreadable =>
        return Err(ReadDirFailed);
      case Present(entries) =>
        var sites: seq<SiteConfig> := [];
        for i := 0 to |entries|
          invariant sites == Sites(entries[..i])
        {
          SitesSnoc(entries[..i], entries[i]);
          assert entries[..i + 1] == entries[..i] + [entries[i]];
          var entry := entries[i];
          if entry.node.Folder? {
            continue;
          }
          var name := entry.name;
          if HasSuffix(name, EnabledSuffix) {
            var config := SiteConfig(TrimSuffix(name, EnabledSuffix), name, Enabled, "", "");
            config := ParseConfigDetails(config, entry.node);
            sites := sites + [config];
          } else if HasSuffix(name, DisabledSuffix) {
            var config := SiteConfig(TrimSuffix(name, DisabledSuffix), name, Disabled, "", "");
            config := ParseConfigDetails(config, entry.node);
            sites := sites + [config];
          }
        }
        assert entries[..|entries|] == entries;
        return Ok(sites);
    }

    /** `ToggleSite`: the first site named `sub` is renamed to its other suffix. */
    method ToggleSite(dir: Directory, sub: string) returns (r: Result<SiteStatus, ManagerError>)
      modifies dir
      ensures (r, dir.state) == ToggleSpec(old(dir.state), sub)
    {
      var listed := ListSites(dir);
      if listed.Err? {
        return Err(listed.error);
      }
      var sites := listed.value;
      var target := FindNamed(sites, sub);
      if target == -1 {
        return Err(SiteNotFound(sub));
      }
      var t := sites[target];
      var newFilename: string;
      var newStatus: SiteStatus;
      if t.status == Enabled {
        newFilename := t.name + DisabledSuffix;
        newStatus := Disabled;
      } else {
        newFilename := t.name + EnabledSuffix;
        newStatus := Enabled;
      }
      var ok := dir.Rename(t.filename, newFilename);
      if !ok {
        return Err(RenameFailed(t.filename, newFilename));
      }
      return Ok(newStatus);
    }
  }
}
