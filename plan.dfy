/**
 * The export planner (internal/swagexport/plan.go): which files of a SWAG
 * directory go into an export, and the de-duplicated, path-sorted list it
 * hands to the zip writer.
 *
 * The file system is a parameter: `SwagFs` holds what `os.Stat`, `os.Lstat`,
 * `os.ReadDir` and `filepath.WalkDir` report for the places the planner
 * looks at.
 */
module Plan {
  import opened Wrappers
  import opened Text
  import opened Sorting
  import opened Exclude

  const ProfileMinimal: string := "minimal"
  const ProfileStandard: string := "standard"
  const ProfileFull: string := "full"

  /** The options the planner reads. */
  datatype Options = Options(
    profile: string,
    includeSecrets: bool,
    proxyConfOnly: bool,
    excludeGlobs: seq<string>)

  /** What `os.Lstat` reports about a file; times in nanoseconds. */
  datatype Info = Info(isDir: bool, isSymlink: bool, isRegular: bool, size: int, modTime: int)

  /** `fileEntry`: one file of the export. */
  datatype FileEntry = FileEntry(absPath: string, relPath: string, size: int, modTime: int)

  // ---------------------------------------------------------------------------
  // Per-file rules

  /** `strings.EqualFold`, on ASCII letters. */
  predicate EqualFold(a: string, b: string) {
    ToLower(a) == ToLower(b)
  }

  /** The proxy-confs filter: no readme, no samples or examples, and with `only` just configurations. */
  predicate ProxyConfIncluded(name: string, only: bool) {
    var l := ToLower(name);
    !EqualFold(name, "README.md") &&
    !Contains(l, "sample") && !Contains(l, "example") &&
    (!only || HasSuffix(l, ".conf") || HasSuffix(l, ".conf.disabled"))
  }

  /** The fail2ban filter: no database, and only `.conf` and `.local` files. */
  predicate Fail2banIncluded(name: string) {
    var l := ToLower(name);
    !EqualFold(name, "fail2ban.sqlite3") &&
    (HasSuffix(l, ".conf") || HasSuffix(l, ".local"))
  }

  /** The top-level nginx files taken: `.conf`, `.pem` (any case) and `.htpasswd`. */
  predicate TopLevelSelected(name: string, isDir: bool) {
    var l := ToLower(name);
    !isDir && (HasSuffix(l, ".conf") || HasSuffix(l, ".pem") || name == ".htpasswd")
  }

  /** The proxy-confs filter ignores letter case. */
  lemma ProxyConfCaseBlind(name: string, only: bool)
    ensures ProxyConfIncluded(name, only) <==> ProxyConfIncluded(ToLower(name), only)
  {
    ToLowerIdempotent(name);
  }

  /** Asking for configurations only never lets more files through. */
  lemma ProxyConfOnlyNarrows(name: string)
    ensures ProxyConfIncluded(name, true) ==> ProxyConfIncluded(name, false)
    ensures !ProxyConfIncluded(name, false) ==> !ProxyConfIncluded(name, true)
  {
  }

  /**
   * A name with `sample` or `example` anywhere in it, in any mix of cases, is
   * never exported from proxy-confs.
   */
  lemma SampleNeverExported(pre: string, mid: string, post: string, only: bool)
    requires ToLower(mid) == "sample" || ToLower(mid) == "example"
    ensures !ProxyConfIncluded(pre + mid + post, only)
  {
    var w := ToLower(mid);
    var l := ToLower(pre + mid + post);
    assert l == ToLower(pre) + w + ToLower(post) by {
      ToLowerConcat(pre + mid, post);
      ToLowerConcat(pre, mid);
    }
    assert Contains(w, w) by {
      assert HasPrefix(w, w);
    }
    ContainsOfPart(w, w, ToLower(pre));
    ContainsOfPart(w, ToLower(pre) + w, ToLower(post));
  }

  lemma {:induction false} ToLowerConcat(a: string, b: string)
    ensures ToLower(a + b) == ToLower(a) + ToLower(b)
  {
    var r := ToLower(a + b);
    assert forall i :: 0 <= i < |r| ==> r[i] == (ToLower(a) + ToLower(b))[i];
  }

  /** The fail2ban filter keeps a file exactly when its lower-cased name ends `.conf` or `.local`. */
  lemma Fail2banKept(name: string)
    ensures Fail2banIncluded(name) <==> HasSuffix(ToLower(name), ".conf") || HasSuffix(ToLower(name), ".local")
  {
    var l := ToLower(name);
    if EqualFold(name, "fail2ban.sqlite3") {
      assert l[|l| - 1] == LowerChar('3');
    }
  }

  // ---------------------------------------------------------------------------
  // De-duplication

  /**
   * The entry `dedupeByRel` keeps for each path: the first one seen, replaced
   * by any later one with a strictly later modification time.
   */
  function Newest(es: seq<FileEntry>): map<string, FileEntry> {
    if es == [] then map[]
    else
      var m := Newest(es[..|es| - 1]);
      var e := es[|es| - 1];
      if e.relPath in m && e.modTime <= m[e.relPath].modTime then m
      else m[e.relPath := e]
  }

  /** `es[j]` is the newest entry of its path, and the first of the newest. */
  predicate IsWinner(es: seq<FileEntry>, j: int) {
    0 <= j < |es| &&
    forall i :: 0 <= i < |es| && es[i].relPath == es[j].relPath ==>
      es[i].modTime <= es[j].modTime && (i < j ==> es[i].modTime < es[j].modTime)
  }

  /** The entry is kept for its path. */
  predicate Kept(es: seq<FileEntry>, e: FileEntry) {
    e.relPath in Newest(es) && Newest(es)[e.relPath] == e
  }

  /** One key per path present, and each key's entry is a winner for it. */
  lemma {:induction false} NewestSpec(es: seq<FileEntry>, k: string) returns (j: int)
    ensures k in Newest(es) <==> exists i :: 0 <= i < |es| && es[i].relPath == k
    ensures k in Newest(es) ==> IsWinner(es, j) && es[j].relPath == k && Newest(es)[k] == es[j]
  {
    j := 0;
    if es != [] {
      var n := |es| - 1;
      var init := es[..n];
      var e := es[n];
      var j0 := NewestSpec(init, k);
      assert forall i :: 0 <= i < n ==> init[i] == es[i];
      if e.relPath != k {
        j := j0;
        if k in Newest(init) {
          assert IsWinner(init, j0);
        }
      } else if k in Newest(init) && e.modTime <= Newest(init)[k].modTime {
        j := j0;
      } else {
        j := n;
        if k in Newest(init) {
          assert IsWinner(init, j0);
          assert forall i :: 0 <= i < n && es[i].relPath == k ==> es[i].modTime <= es[j0].modTime;
        }
      }
    }
  }

  /** Two winners of the same path are the same index. */
  lemma WinnerUnique(es: seq<FileEntry>, j1: int, j2: int)
    requires IsWinner(es, j1) && IsWinner(es, j2) && es[j1].relPath == es[j2].relPath
    ensures j1 == j2
  {
  }

  /**
   * `dedupeByRel` keeps an entry exactly when it is the newest of its path and
   * was seen before any other entry of that path as new.
   */
  lemma KeptMeaning(es: seq<FileEntry>, e: FileEntry)
    ensures Kept(es, e) <==> exists j :: IsWinner(es, j) && es[j] == e
  {
    var j := NewestSpec(es, e.relPath);
    if exists j' :: IsWinner(es, j') && es[j'] == e {
      var j' :| IsWinner(es, j') && es[j'] == e;
      assert e.relPath in Newest(es);
      WinnerUnique(es, j, j');
    }
  }

  /** Entries ordered by strictly increasing path. */
  predicate SortedByRel(s: seq<FileEntry>) {
    forall i, j :: 0 <= i < j < |s| ==> Less(s[i].relPath, s[j].relPath)
  }

  /** No two entries share a path. */
  predicate DistinctRel(s: seq<FileEntry>) {
    forall i, j :: 0 <= i < j < |s| ==> s[i].relPath != s[j].relPath
  }

  /** Inserting into a path-sorted sequence. */
  function InsertByRel(s: seq<FileEntry>, e: FileEntry): seq<FileEntry> {
    if s == [] then [e]
    else if Less(e.relPath, s[0].relPath) then [e] + s
    else [s[0]] + InsertByRel(s[1..], e)
  }

  /** Inserting adds exactly the new entry. */
  lemma {:induction false} InsertByRelPerm(s: seq<FileEntry>, e: FileEntry)
    ensures multiset(InsertByRel(s, e)) == multiset(s) + multiset{e}
  {
    if s != [] && !Less(e.relPath, s[0].relPath) {
      InsertByRelPerm(s[1..], e);
      assert s == [s[0]] + s[1..];
    }
  }

  /** Every path in `s` comes after `p`. */
  predicate Below(p: string, s: seq<FileEntry>) {
    forall j :: 0 <= j < |s| ==> Less(p, s[j].relPath)
  }

  /** A sequence with a first entry is sorted when the rest is and comes after it. */
  lemma SortedCons(x: FileEntry, t: seq<FileEntry>)
    ensures SortedByRel([x] + t) <==> SortedByRel(t) && Below(x.relPath, t)
  {
    var s := [x] + t;
    if SortedByRel(s) {
      forall i, j | 0 <= i < j < |t| ensures Less(t[i].relPath, t[j].relPath) {
        assert t[i] == s[i + 1] && t[j] == s[j + 1];
      }
      forall j | 0 <= j < |t| ensures Less(x.relPath, t[j].relPath) {
        assert s[0] == x && t[j] == s[j + 1];
      }
    }
  }

  /** Inserting an entry that comes after `p` keeps everything after `p`. */
  lemma {:induction false} InsertByRelBelow(t: seq<FileEntry>, e: FileEntry, p: string)
    requires Below(p, t) && Less(p, e.relPath)
    ensures Below(p, InsertByRel(t, e))
  {
    if t != [] && !Less(e.relPath, t[0].relPath) {
      InsertByRelBelow(t[1..], e, p);
    }
  }

  /** Inserting an entry of a new path keeps the sequence path-sorted. */
  lemma {:induction false} InsertByRelSorted(s: seq<FileEntry>, e: FileEntry)
    requires SortedByRel(s)
    requires forall x :: x in s ==> x.relPath != e.relPath
    ensures SortedByRel(InsertByRel(s, e))
  {
    if s == [] {
    } else {
      var t := s[1..];
      assert s == [s[0]] + t;
      SortedCons(s[0], t);
      if Less(e.relPath, s[0].relPath) {
        forall j | 0 <= j < |s| ensures Less(e.relPath, s[j].relPath) {
          if j > 0 {
            LessTransitive(e.relPath, s[0].relPath, s[j].relPath);
          }
        }
        SortedCons(e, s);
      } else {
        InsertByRelSorted(t, e);
        LessTotal(e.relPath, s[0].relPath);
        InsertByRelBelow(t, e, s[0].relPath);
        SortedCons(s[0], InsertByRel(t, e));
      }
    }
  }

  /** `sort.Slice` by path, an insertion sort here; the paths are distinct. */
  method SortByRel(es: seq<FileEntry>) returns (out: seq<FileEntry>)
    requires DistinctRel(es)
    ensures SortedByRel(out)
    ensures multiset(out) == multiset(es)
  {
    out := [];
    for i := 0 to |es|
      invariant SortedByRel(out)
      invariant multiset(out) == multiset(es[..i])
    {
      forall x | x in out ensures x.relPath != es[i].relPath {
        assert x in multiset(es[..i]);
        var k :| 0 <= k < i && es[..i][k] == x;
      }
      InsertByRelSorted(out, es[i]);
      InsertByRelPerm(out, es[i]);
      assert es[..i + 1] == es[..i] + [es[i]];
      out := InsertByRel(out, es[i]);
    }
    assert es[..|es|] == es;
  }

  /**
   * `dedupeByRel`: one entry per path, the newest one (the first seen among
   * equally new ones), in increasing path order.
   */
  method DedupeByRel(input: seq<FileEntry>) returns (out: seq<FileEntry>)
    ensures SortedByRel(out)
    ensures forall e :: e in out <==> Kept(input, e)
  {
    var seen: map<string, FileEntry> := map[];
    for i := 0 to |input|
      invariant seen == Newest(input[..i])
    {
      assert input[..i + 1][..i] == input[..i];
      var e := input[i];
      if e.relPath in seen {
        if e.modTime > seen[e.relPath].modTime {
          seen := seen[e.relPath := e];
        }
      } else {
        seen := seen[e.relPath := e];
      }
    }
    assert input[..|input|] == input;
    forall k | k in seen ensures seen[k].relPath == k {
      var j := NewestSpec(input, k);
    }
    var values: seq<FileEntry> := [];
    var keys := seen.Keys;
    while keys != {}
      invariant keys <= seen.Keys
      invariant forall e :: e in values <==> e.relPath in seen.Keys - keys && seen[e.relPath] == e
      invariant DistinctRel(values)
      decreases |keys|
    {
      var k :| k in keys;
      values := values + [seen[k]];
      keys := keys - {k};
    }
    out := SortByRel(values);
    assert forall e :: e in out <==> e in multiset(values);
  }

  /** Every path of the input keeps exactly one entry. */
  lemma KeptPaths(es: seq<FileEntry>, k: string)
    ensures (exists e :: Kept(es, e) && e.relPath == k) <==> exists i :: 0 <= i < |es| && es[i].relPath == k
  {
    var j := NewestSpec(es, k);
    if exists i :: 0 <= i < |es| && es[i].relPath == k {
      assert Kept(es, es[j]);
    }
  }

  /** A kept entry is one of the input entries. */
  lemma KeptFromInput(es: seq<FileEntry>, e: FileEntry)
    requires Kept(es, e)
    ensures e in es
  {
    KeptMeaning(es, e);
  }

  // ---------------------------------------------------------------------------
  // Walking the SWAG directory

  /** What `os.Stat` says about a directory the planner needs. */
  datatype DirStat = StatFailed | NotDir | IsDir

  /** An item `filepath.WalkDir` visits: its path below the walked directory, its name, its info. */
  datatype Walked = Walked(rel: string, name: string, info: Info)

  /** An entry of `os.ReadDir` on `config/nginx`. */
  datatype NginxEntry = NginxEntry(name: string, info: Info)

  /**
   * The SWAG directory as the planner sees it: the root and `config/nginx`,
   * the entries of `config/nginx`, the single files by relative path, and the
   * walked directories by relative path (absent: missing or not a directory).
   */
  datatype SwagFs = SwagFs(
    root: DirStat,
    nginx: DirStat,
    nginxEntries: seq<NginxEntry>,
    files: map<string, Info>,
    trees: map<string, seq<Walked>>)

  /** The include rule a walked directory applies to file names. */
  datatype Filter = Everything | ProxyConfs(only: bool) | Fail2ban

  predicate Includes(f: Filter, name: string) {
    match f
    case Everything => true
    case ProxyConfs(only) => ProxyConfIncluded(name, only)
    case Fail2ban => Fail2banIncluded(name)
  }

  /** A file added if it exists, or a directory walked with a filter. */
  datatype Step = Single(rel: string) | Tree(base: string, filter: Filter)

  const StandardDirs: seq<Step> := [
    Tree("config/custom-cont-init.d", Everything),
    Tree("config/custom-services.d", Everything),
    Tree("config/crontabs", Everything),
    Tree("config/php", Everything),
    Tree("config/www", Everything)
  ]

  const SecretDirs: seq<Step> := [
    Tree("config/dns-conf", Everything),
    Tree("config/keys", Everything),
    Tree("config/etc/letsencrypt", Everything)
  ]

  const Fail2banDir: Step := Tree("config/fail2ban", Fail2ban)

  /** The sources after the top-level nginx files, in order, as the profile selects them. */
  function Steps(opts: Options): seq<Step> {
    [ Tree("config/nginx/proxy-confs", ProxyConfs(opts.proxyConfOnly)),
      Tree("config/nginx/site-confs", Everything),
      Single("config/nginx/site-conf/default") ] +
    (if opts.profile == ProfileStandard || opts.profile == ProfileFull then StandardDirs else []) +
    (if opts.profile == ProfileFull then (if opts.includeSecrets then SecretDirs else []) + [Fail2banDir] else [])
  }

  /** The absolute path of a path relative to the SWAG directory. */
  function AbsOf(swagDir: string, rel: string): string {
    swagDir + "/" + rel
  }

  /**
   * `addFile`: a leading `/` dropped; empty and `.` paths, excluded paths,
   * symbolic links and anything but regular files skipped.
   */
  function AddFileSpec(ex: Option<Excluder>, abs: string, rel: string, info: Info): seq<FileEntry> {
    var r := TrimPrefix(rel, "/");
    if r == "." || r == "" || Excluded(ex, r) || info.isSymlink || !info.isRegular then []
    else [FileEntry(abs, r, info.size, info.modTime)]
  }

  /** One walked item: directories, `config/log/` and filtered names skipped, then `addFile`. */
  function WalkOne(ex: Option<Excluder>, swagDir: string, base: string, w: Walked, f: Filter): seq<FileEntry> {
    var rel := base + "/" + w.rel;
    if w.info.isDir || HasPrefix(rel, "config/log/") || !Includes(f, w.name) then []
    else AddFileSpec(ex, AbsOf(swagDir, rel), rel, w.info)
  }

  function WalkSpec(ex: Option<Excluder>, swagDir: string, base: string, ws: seq<Walked>, f: Filter): seq<FileEntry> {
    if ws == [] then []
    else
      var n := |ws| - 1;
      WalkSpec(ex, swagDir, base, ws[..n], f) + WalkOne(ex, swagDir, base, ws[n], f)
  }

  lemma WalkSpecSnoc(ex: Option<Excluder>, swagDir: string, base: string, ws: seq<Walked>, f: Filter, i: nat)
    requires i < |ws|
    ensures WalkSpec(ex, swagDir, base, ws[..i + 1], f) ==
      WalkSpec(ex, swagDir, base, ws[..i], f) + WalkOne(ex, swagDir, base, ws[i], f)
  {
    assert ws[..i + 1][..i] == ws[..i];
  }

  lemma TopLevelSnoc(ex: Option<Excluder>, swagDir: string, es: seq<NginxEntry>, i: nat)
    requires i < |es|
    ensures TopLevelSpec(ex, swagDir, es[..i + 1]) == TopLevelSpec(ex, swagDir, es[..i]) + TopOne(ex, swagDir, es[i])
  {
    assert es[..i + 1][..i] == es[..i];
  }

  /** What one step adds. */
  function StepOut(ex: Option<Excluder>, swagDir: string, fs: SwagFs, st: Step): seq<FileEntry> {
    match st
    case Single(rel) =>
      if rel in fs.files then AddFileSpec(ex, AbsOf(swagDir, rel), rel, fs.files[rel]) else []
    case Tree(base, f) =>
      if base in fs.trees then WalkSpec(ex, swagDir, base, fs.trees[base], f) else []
  }

  function StepsOut(ex: Option<Excluder>, swagDir: string, fs: SwagFs, ss: seq<Step>): seq<FileEntry> {
    if ss == [] then []
    else
      var n := |ss| - 1;
      StepsOut(ex, swagDir, fs, ss[..n]) + StepOut(ex, swagDir, fs, ss[n])
  }

  /** One entry of `config/nginx`: selected by name, not excluded, then `addFile`. */
  function TopOne(ex: Option<Excluder>, swagDir: string, en: NginxEntry): seq<FileEntry> {
    var rel := "config/nginx/" + en.name;
    if !TopLevelSelected(en.name, en.info.isDir) || Excluded(ex, rel) then []
    else AddFileSpec(ex, AbsOf(swagDir, rel), rel, en.info)
  }

  function TopLevelSpec(ex: Option<Excluder>, swagDir: string, es: seq<NginxEntry>): seq<FileEntry> {
    if es == [] then []
    else
      var n := |es| - 1;
      TopLevelSpec(ex, swagDir, es[..n]) + TopOne(ex, swagDir, es[n])
  }

  /** Every file the planner collects before de-duplication, in order. */
  function Candidates(ex: Option<Excluder>, swagDir: string, opts: Options, fs: SwagFs): seq<FileEntry> {
    StepOut(ex, swagDir, fs, Single("compose.yaml")) +
    TopLevelSpec(ex, swagDir, fs.nginxEntries) +
    StepsOut(ex, swagDir, fs, Steps(opts))
  }

  /** What every collected file satisfies: a real relative path, not excluded, not under `config/log/`. */
  predicate Admissible(ex: Option<Excluder>, e: FileEntry) {
    e.relPath != "" && e.relPath != "." && !Excluded(ex, e.relPath) && !HasPrefix(e.relPath, "config/log/")
  }

  /** A path relative to the SWAG directory, without a leading `/`. */
  predicate Relative(p: string) {
    p != "" && p[0] != '/'
  }

  /** The planner never walks `config/log`, and names every source by a relative path. */
  predicate SafeStep(st: Step) {
    match st
    case Single(rel) => Relative(rel) && !HasPrefix(rel, "config/log/")
    case Tree(base, _) => Relative(base)
  }

  lemma AddFileAdmissible(ex: Option<Excluder>, abs: string, rel: string, info: Info)
    requires Relative(rel) && !HasPrefix(rel, "config/log/")
    ensures forall e :: e in AddFileSpec(ex, abs, rel, info) ==> Admissible(ex, e) && e.relPath == rel
  {
    assert rel[..1][0] == rel[0];
    assert TrimPrefix(rel, "/") == rel;
  }

  lemma WalkOneAdmissible(ex: Option<Excluder>, swagDir: string, base: string, w: Walked, f: Filter)
    requires Relative(base)
    ensures forall e :: e in WalkOne(ex, swagDir, base, w, f) ==> Admissible(ex, e)
  {
    var rel := base + "/" + w.rel;
    assert rel[0] == base[0];
    if !(w.info.isDir || HasPrefix(rel, "config/log/") || !Includes(f, w.name)) {
      AddFileAdmissible(ex, AbsOf(swagDir, rel), rel, w.info);
    }
  }

  lemma {:induction false} WalkSpecAdmissible(ex: Option<Excluder>, swagDir: string, base: string, ws: seq<Walked>, f: Filter)
    requires Relative(base)
    ensures forall e :: e in WalkSpec(ex, swagDir, base, ws, f) ==> Admissible(ex, e)
    decreases |ws|
  {
    if ws != [] {
      var n := |ws| - 1;
      WalkSpecAdmissible(ex, swagDir, base, ws[..n], f);
      WalkOneAdmissible(ex, swagDir, base, ws[n], f);
    }
  }

  lemma {:induction false} StepsAdmissible(ex: Option<Excluder>, swagDir: string, fs: SwagFs, ss: seq<Step>)
    requires forall st :: st in ss ==> SafeStep(st)
    ensures forall e :: e in StepsOut(ex, swagDir, fs, ss) ==> Admissible(ex, e)
    decreases |ss|
  {
    if ss != [] {
      var n := |ss| - 1;
      assert forall st :: st in ss[..n] ==> st in ss;
      StepsAdmissible(ex, swagDir, fs, ss[..n]);
      assert SafeStep(ss[n]);
      match ss[n]
      case Single(rel) =>
        if rel in fs.files {
          AddFileAdmissible(ex, AbsOf(swagDir, rel), rel, fs.files[rel]);
        }
      case Tree(base, f) =>
        if base in fs.trees {
          WalkSpecAdmissible(ex, swagDir, base, fs.trees[base], f);
        }
    }
  }

  lemma TopOneAdmissible(ex: Option<Excluder>, swagDir: string, en: NginxEntry)
    ensures forall e :: e in TopOne(ex, swagDir, en) ==> Admissible(ex, e)
  {
    var rel := "config/nginx/" + en.name;
    assert rel[0] == 'c' && rel[7] == 'n';
    assert !HasPrefix(rel, "config/log/") by {
      assert "config/log/"[7] == 'l';
    }
    AddFileAdmissible(ex, AbsOf(swagDir, rel), rel, en.info);
  }

  lemma {:induction false} TopLevelAdmissible(ex: Option<Excluder>, swagDir: string, es: seq<NginxEntry>)
    ensures forall e :: e in TopLevelSpec(ex, swagDir, es) ==> Admissible(ex, e)
    decreases |es|
  {
    if es != [] {
      var n := |es| - 1;
      TopLevelAdmissible(ex, swagDir, es[..n]);
      TopOneAdmissible(ex, swagDir, es[n]);
    }
  }

  lemma StepsSafe(opts: Options)
    ensures forall st :: st in Steps(opts) ==> SafeStep(st)
  {
    var d := "config/nginx/site-conf/default";
    assert !HasPrefix(d, "config/log/") by {
      assert d[7] == 'n' && "config/log/"[7] == 'l';
    }
    ListedDirsSafe();
  }

  lemma ListedDirsSafe()
    ensures forall st :: st in StandardDirs ==> SafeStep(st)
    ensures forall st :: st in SecretDirs ==> SafeStep(st)
    ensures SafeStep(Fail2banDir)
  {
  }

  /**
   * The rules `addFile` and `addDirFiltered` enforce hold of every file
   * collected: no empty or `.` path, nothing excluded, nothing under `config/log/`.
   */
  lemma CandidatesAdmissible(ex: Option<Excluder>, swagDir: string, opts: Options, fs: SwagFs)
    ensures forall e :: e in Candidates(ex, swagDir, opts, fs) ==> Admissible(ex, e)
  {
    var c := "compose.yaml";
    assert !HasPrefix(c, "config/log/") by {
      assert c[2] == 'm' && "config/log/"[2] == 'n';
    }
    if c in fs.files {
      AddFileAdmissible(ex, AbsOf(swagDir, c), c, fs.files[c]);
    }
    TopLevelAdmissible(ex, swagDir, fs.nginxEntries);
    StepsSafe(opts);
    StepsAdmissible(ex, swagDir, fs, Steps(opts));
  }

  /**
   * Which directories each profile exports: proxy-confs, site-confs and the
   * default site always; the standard directories for `standard` and `full`;
   * the secret directories only for `full` with secrets requested; fail2ban
   * only for `full`.
   */
  lemma ProfileGating(opts: Options)
    ensures Tree("config/nginx/proxy-confs", ProxyConfs(opts.proxyConfOnly)) in Steps(opts)
    ensures Tree("config/nginx/site-confs", Everything) in Steps(opts)
    ensures Single("config/nginx/site-conf/default") in Steps(opts)
    ensures forall st :: st in StandardDirs ==>
      (st in Steps(opts) <==> opts.profile == ProfileStandard || opts.profile == ProfileFull)
    ensures Fail2banDir in Steps(opts) <==> opts.profile == ProfileFull
  {
  }

  /** The secret directories are exported only by `full` with secrets requested. */
  lemma SecretsGating(opts: Options)
    ensures forall st :: st in SecretDirs ==>
      (st in Steps(opts) <==> opts.profile == ProfileFull && opts.includeSecrets)
  {
  }

  datatype PlanError =
    | EmptySwagDir
    | SwagDirUnusable(path: string)
    | SwagDirNotDir(path: string)
    | BadExclude(cause: ExcludeError)
    | NginxDirUnusable(path: string)
    | NginxDirNotDir(path: string)

  /** The error `buildFilePlan` stops with, if any. */
  function PlanFailure(swagDir: string, opts: Options, fs: SwagFs): Option<PlanError> {
    if TrimSpace(swagDir) == "" then Some(EmptySwagDir)
    else if fs.root == StatFailed then Some(SwagDirUnusable(swagDir))
    else if fs.root == NotDir then Some(SwagDirNotDir(swagDir))
    else if NewExcluderSpec(opts.excludeGlobs).Err? then Some(BadExclude(NewExcluderSpec(opts.excludeGlobs).error))
    else if fs.nginx == StatFailed then Some(NginxDirUnusable(AbsOf(swagDir, "config/nginx")))
    else if fs.nginx == NotDir then Some(NginxDirNotDir(AbsOf(swagDir, "config/nginx")))
    else None
  }

  /** The collector the closures of `buildFilePlan` share: the excluder and the growing `out`. */
  class PlanBuilder {
    const swagDir: string
    const ex: Option<Excluder>
    var out: seq<FileEntry>

    constructor(swagDir: string, ex: Option<Excluder>)
      ensures this.swagDir == swagDir && this.ex == ex && out == []
    {
      this.swagDir := swagDir;
      this.ex := ex;
      out := [];
    }

    /** `addFile`. */
    method AddFile(abs: string, rel: string, info: Info)
      modifies this
      ensures out == old(out) + AddFileSpec(ex, abs, rel, info)
    {
      var r := TrimPrefix(rel, "/");
      if r == "." || r == "" {
        return;
      }
      var excluded := IsExcluded(ex, r);
      if excluded {
        return;
      }
      if info.isSymlink || !info.isRegular {
        return;
      }
      out := out + [FileEntry(abs, r, info.size, info.modTime)];
    }

    /** `addFileIfExists`. */
    method AddFileIfExists(fs: SwagFs, rel: string)
      modifies this
      ensures out == old(out) + StepOut(ex, swagDir, fs, Single(rel))
    {
      if rel !in fs.files {
        return;
      }
      AddFile(AbsOf(swagDir, rel), rel, fs.files[rel]);
    }

    /** `addDirFiltered`: walks the directory, if present, in the order `WalkDir` visits it. */
    method AddDirFiltered(fs: SwagFs, base: string, f: Filter)
      modifies this
      ensures out == old(out) + StepOut(ex, swagDir, fs, Tree(base, f))
    {
      if base !in fs.trees {
        return;
      }
      var ws := fs.trees[base];
      ghost var o := out;
      for i := 0 to |ws|
        invariant out == o + WalkSpec(ex, swagDir, base, ws[..i], f)
      {
        ghost var w := WalkSpec(ex, swagDir, base, ws[..i], f);
        WalkSpecSnoc(ex, swagDir, base, ws, f, i);
        AddWalked(base, ws[i], f);
        AppendAssoc(o, w, WalkOne(ex, swagDir, base, ws[i], f));
      }
      assert ws[..|ws|] == ws;
    }

    /** The `WalkDir` callback of `addDirFiltered`, for one visited item. */
    method AddWalked(base: string, w: Walked, f: Filter)
      modifies this
      ensures out == old(out) + WalkOne(ex, swagDir, base, w, f)
    {
      if w.info.isDir {
        return;
      }
      var rel := base + "/" + w.rel;
      if HasPrefix(rel, "config/log/") {
        return;
      }
      if !Includes(f, w.name) {
        return;
      }
      AddFile(AbsOf(swagDir, rel), rel, w.info);
    }

    /** The profile's sources, one after the other. */
    method AddSteps(fs: SwagFs, steps: seq<Step>)
      modifies this
      ensures out == old(out) + StepsOut(ex, swagDir, fs, steps)
    {
      ghost var o := out;
      for i := 0 to |steps|
        invariant out == o + StepsOut(ex, swagDir, fs, steps[..i])
      {
        ghost var t := StepsOut(ex, swagDir, fs, steps[..i]);
        assert steps[..i + 1][..i] == steps[..i];
        match steps[i]
        case Single(rel) => AddFileIfExists(fs, rel);
        case Tree(base, f) => AddDirFiltered(fs, base, f);
        AppendAssoc(o, t, StepOut(ex, swagDir, fs, steps[i]));
      }
      assert steps[..|steps|] == steps;
    }

    /** The rest of `buildFilePlan` once the nginx directory is there. */
    method Finish(fs: SwagFs, opts: Options) returns (entries: seq<FileEntry>)
      modifies this
      ensures out == old(out) + TopLevelSpec(ex, swagDir, fs.nginxEntries) + StepsOut(ex, swagDir, fs, Steps(opts))
      ensures SortedByRel(entries) && forall e :: e in entries <==> Kept(out, e)
    {
      AddNginxTopLevelFiles(fs.nginxEntries);
      AddSteps(fs, Steps(opts));
      entries := DedupeByRel(out);
    }

    /** `addNginxTopLevelFiles`. */
    method AddNginxTopLevelFiles(es: seq<NginxEntry>)
      modifies this
      ensures out == old(out) + TopLevelSpec(ex, swagDir, es)
    {
      ghost var o := out;
      for i := 0 to |es|
        invariant out == o + TopLevelSpec(ex, swagDir, es[..i])
      {
        ghost var t := TopLevelSpec(ex, swagDir, es[..i]);
        TopLevelSnoc(ex, swagDir, es, i);
        AddNginxTopLevelEntry(es[i]);
        AppendAssoc(o, t, TopOne(ex, swagDir, es[i]));
      }
      assert es[..|es|] == es;
    }

    /** One turn of the loop of `addNginxTopLevelFiles`. */
    method AddNginxTopLevelEntry(en: NginxEntry)
      modifies this
      ensures out == old(out) + TopOne(ex, swagDir, en)
    {
      if en.info.isDir {
        return;
      }
      var name := en.name;
      var l := ToLower(name);
      var should := false;
      if HasSuffix(l, ".conf") || HasSuffix(l, ".pem") {
        should := true;
      }
      if name == ".htpasswd" {
        should := true;
      }
      if !should {
        return;
      }
      var rel := "config/nginx/" + name;
      var excluded := IsExcluded(ex, rel);
      if excluded {
        return;
      }
      AddFile(AbsOf(swagDir, rel), rel, en.info);
    }
  }

  /**
   * `buildFilePlan`: the checks, then compose.yaml, the top-level nginx files
   * and the profile's directories, de-duplicated and sorted by path.
   */
  method BuildFilePlan(swagDir: string, opts: Options, fs: SwagFs) returns (r: Result<seq<FileEntry>, PlanError>)
    ensures r.Err? <==> PlanFailure(swagDir, opts, fs).Some?
    ensures r.Err? ==> r.error == PlanFailure(swagDir, opts, fs).value
    ensures r.Ok? ==> NewExcluderSpec(opts.excludeGlobs).Ok? && SortedByRel(r.value)
    ensures r.Ok? ==>
      forall e :: e in r.value <==> Kept(Candidates(NewExcluderSpec(opts.excludeGlobs).value, swagDir, opts, fs), e)
    ensures r.Ok? ==> forall e :: e in r.value ==> Admissible(NewExcluderSpec(opts.excludeGlobs).value, e)
  {
    if TrimSpace(swagDir) == "" {
      return Err(EmptySwagDir);
    }
    if fs.root != IsDir {
      if fs.root == StatFailed {
        return Err(SwagDirUnusable(swagDir));
      }
      return Err(SwagDirNotDir(swagDir));
    }
    var exr := NewExcluder(opts.excludeGlobs);
    if exr.Err? {
      return Err(BadExclude(exr.error));
    }
    r := CollectPlan(swagDir, exr.value, opts, fs);
  }

  /** The part of `buildFilePlan` after the excluder is built: compose.yaml, the nginx check, the rest. */
  method CollectPlan(swagDir: string, ex: Option<Excluder>, opts: Options, fs: SwagFs) returns (r: Result<seq<FileEntry>, PlanError>)
    ensures r.Err? <==> fs.nginx != IsDir
    ensures fs.nginx == StatFailed ==> r == Err(NginxDirUnusable(AbsOf(swagDir, "config/nginx")))
    ensures fs.nginx == NotDir ==> r == Err(NginxDirNotDir(AbsOf(swagDir, "config/nginx")))
    ensures r.Ok? ==> SortedByRel(r.value) && forall e :: e in r.value <==> Kept(Candidates(ex, swagDir, opts, fs), e)
    ensures r.Ok? ==> forall e :: e in r.value ==> Admissible(ex, e)
  {
    var b := new PlanBuilder(swagDir, ex);
    b.AddFileIfExists(fs, "compose.yaml");
    if fs.nginx != IsDir {
      if fs.nginx == StatFailed {
        return Err(NginxDirUnusable(AbsOf(swagDir, "config/nginx")));
      }
      return Err(NginxDirNotDir(AbsOf(swagDir, "config/nginx")));
    }
    assert b.out == StepOut(ex, swagDir, fs, Single("compose.yaml"));
    var deduped := b.Finish(fs, opts);
    assert b.out == Candidates(ex, swagDir, opts, fs);
    CandidatesAdmissible(ex, swagDir, opts, fs);
    forall e | e in deduped
      ensures Admissible(ex, e)
    {
      KeptFromInput(b.out, e);
    }
    return Ok(deduped);
  }
}
