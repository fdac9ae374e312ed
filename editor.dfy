/**
 * The default-site editor's entry points (internal/nginx/default_site.go,
 * `SetHomepage` and `ClearHomepage`): validate, read the file, compute the new
 * text, and either report no change, report a dry run, or back the file up and
 * replace it. The file system is a map from path to contents; the time stamp
 * of the backup name is a parameter.
 */
module Editor {
  import opened Wrappers
  import opened Text
  import opened DefaultSite
  import opened Homepage
  import opened BlockLocator

  /** `EditResult`. */
  datatype EditResult = EditResult(changed: bool, backupPath: string)

  /** What a call returns and the files it leaves behind. */
  datatype Outcome = Outcome(result: Result<EditResult, EditError>, files: map<string, string>)

  // ---------------------------------------------------------------------------
  // Paths

  /** The index of the last `/` of `path`, or -1. */
  function LastSlash(path: string): (k: int)
    ensures -1 <= k < |path|
    ensures k >= 0 ==> path[k] == '/'
    ensures forall j :: k < j < |path| ==> path[j] != '/'
  {
    if path == [] then -1
    else if path[|path| - 1] == '/' then |path| - 1
    else LastSlash(path[..|path| - 1])
  }

  /** `backupFile`'s name: the base name with `.bak-` and the stamp, in the same directory. */
  function BackupPath(path: string, stamp: string): string {
    path + ".bak-" + stamp
  }

  /** `writeFileAtomic`'s temporary name: the base name with a `.` in front and `.tmp` behind. */
  function TmpPath(path: string): string {
    var k := LastSlash(path);
    path[..k + 1] + "." + path[k + 1..] + ".tmp"
  }

  /** A stamp as `time.Now().Format("20060102-150405")` writes it. */
  predicate StampShape(stamp: string) {
    |stamp| == 15 && forall i :: 0 <= i < 15 ==> if i == 8 then stamp[i] == '-' else IsDigit(stamp[i])
  }

  /** The file, its backup and the temporary file are three different paths. */
  lemma PathsDistinct(path: string, stamp: string)
    requires StampShape(stamp)
    ensures BackupPath(path, stamp) != path
    ensures TmpPath(path) != path
    ensures TmpPath(path) != BackupPath(path, stamp)
  {
    var t := TmpPath(path);
    var b := BackupPath(path, stamp);
    assert |t| == |path| + 5;
    assert t[|t| - 1] == 'p';
    assert b[|b| - 1] == stamp[14];
  }

  // ---------------------------------------------------------------------------
  // The decisions

  /** The checks `SetHomepage` makes before it reads anything, in order. */
  function Validate(cfg: HomepageConfig): (r: Option<EditError>)
    ensures r.None? <==>
              && TrimSpace(cfg.domain) != ""
              && TrimSpace(cfg.upstreamApp) != ""
              && 1 <= cfg.upstreamPort <= 65535
              && (cfg.upstreamProto == "http" || cfg.upstreamProto == "https")
    ensures r == Some(DomainRequired) <==> TrimSpace(cfg.domain) == ""
  {
    if TrimSpace(cfg.domain) == "" then Some(DomainRequired)
    else if TrimSpace(cfg.upstreamApp) == "" then Some(UpstreamAppRequired)
    else if cfg.upstreamPort <= 0 || cfg.upstreamPort > 65535 then Some(InvalidPort(cfg.upstreamPort))
    else if cfg.upstreamProto != "http" && cfg.upstreamProto != "https" then Some(InvalidProto(cfg.upstreamProto))
    else None
  }

  /**
   * `Validate` lets through a domain with white space in front, or with a `;`
   * in it, whenever the bare domain passes; `setServerName` then writes a value
   * that the next run reads differently (DefaultSite.ServerNameSpecGrowsOnPaddedName,
   * DefaultSite.ServerNameSpecGrowsOnSemicolon).
   */
  lemma ValidateAcceptsUnstableDomain(cfg: HomepageConfig)
    requires Validate(cfg).None? && TrimSpace(cfg.domain) == cfg.domain
    ensures Validate(cfg.(domain := " " + cfg.domain)).None?
    ensures Validate(cfg.(domain := cfg.domain + ";")).None?
  {
    var d := cfg.domain;
    TrimSpacePadded(" ", d);
    var e := d + ";";
    assert e[0] == d[0] && e[|e| - 1] == ';';
    TrimSpaceOfTrimmed(e);
  }

  /**
   * The checks the `server_name` rewrite needs on top of `Validate`: the domain
   * is already trimmed and holds no `;`, so a later run reads back the value
   * it wrote.
   */
  function ValidateIntended(cfg: HomepageConfig): (r: Option<EditError>)
    ensures r.None? <==> Validate(cfg).None? && TrimSpace(cfg.domain) == cfg.domain && ';' !in cfg.domain
    ensures Validate(cfg).Some? ==> r == Validate(cfg)
  {
    if Validate(cfg).Some? then Validate(cfg)
    else if TrimSpace(cfg.domain) != cfg.domain || ';' in cfg.domain then Some(InvalidDomain(cfg.domain))
    else None
  }

  /**
   * A domain the intended checks accept is written so that setting it again,
   * or setting any other name after it, is the same as setting that name once.
   */
  lemma IntendedDomainReapply(cfg: HomepageConfig, lines: seq<string>, b: Block, other: string)
    requires ValidateIntended(cfg).None?
    requires 0 <= b.start && b.end < |lines|
    ensures ServerNameSpec(ServerNameSpec(lines, b, cfg.domain), b, cfg.domain) == ServerNameSpec(lines, b, cfg.domain)
    ensures ServerNameSpec(ServerNameSpec(lines, b, cfg.domain), b, other) == ServerNameSpec(lines, b, other)
  {
    var d := cfg.domain;
    assert d != [] && !IsSpace(d[0]);
    ServerNameSpecReapply(lines, b, d, d);
    ServerNameSpecReapply(lines, b, d, other);
  }

  /** `writeFileAtomic`: the temporary file is written, then renamed over the target. */
  function AtomicWrite(files: map<string, string>, path: string, content: string): map<string, string> {
    var tmp := TmpPath(path);
    var written := files[tmp := content];
    (written - {tmp})[path := written[tmp]]
  }

  /** The tail both entry points share once the new text is known. */
  function Commit(files: map<string, string>, path: string, original: string, updated: string,
                  dryRun: bool, stamp: string): Outcome {
    if updated == original then Outcome(Ok(EditResult(false, "")), files)
    else if dryRun then Outcome(Ok(EditResult(true, "")), files)
    else
      var backup := BackupPath(path, stamp);
      Outcome(Ok(EditResult(true, backup)), AtomicWrite(files[backup := original], path, updated))
  }

  /** `SetHomepage`. */
  function SetHomepageSpec(files: map<string, string>, path: string, cfg: HomepageConfig,
                           dryRun: bool, stamp: string): Outcome {
    if Validate(cfg).Some? then Outcome(Err(Validate(cfg).value), files)
    else if path !in files then Outcome(Err(ReadFailed(path)), files)
    else
      var name := if cfg.keepServerNameUnderscore then None else Some(cfg.domain);
      Decide(files, path, UpdateSpec(files[path], cfg, false, name), dryRun, stamp)
  }

  /** An error from `updateDefaultSiteConf` is passed on; new text goes to `Commit`. */
  function Decide(files: map<string, string>, path: string, u: Result<string, EditError>,
                  dryRun: bool, stamp: string): Outcome
    requires path in files
  {
    match u
    case Err(e) => Outcome(Err(e), files)
    case Ok(updated) => Commit(files, path, files[path], updated, dryRun, stamp)
  }

  /** The configuration `ClearHomepage` passes on: only the domain is set. */
  function ClearConfig(domain: string): HomepageConfig {
    HomepageConfig(domain, "", 0, "", false)
  }

  /** `ClearHomepage`. */
  function ClearHomepageSpec(files: map<string, string>, path: string, domain: string,
                             restoreUnderscore: bool, dryRun: bool, stamp: string): Outcome {
    if path !in files then Outcome(Err(ReadFailed(path)), files)
    else
      var name := if restoreUnderscore then Some("_") else None;
      Decide(files, path, UpdateSpec(files[path], ClearConfig(domain), true, name), dryRun, stamp)
  }

  // ---------------------------------------------------------------------------
  // What the decisions promise

  /** A configuration that fails a check is refused whatever the files hold, and nothing is touched. */
  lemma SetHomepageValidatesFirst(files: map<string, string>, path: string, cfg: HomepageConfig,
                                  dryRun: bool, stamp: string)
    requires !(TrimSpace(cfg.domain) != "" && TrimSpace(cfg.upstreamApp) != ""
               && 1 <= cfg.upstreamPort <= 65535 && (cfg.upstreamProto == "http" || cfg.upstreamProto == "https"))
    ensures var o := SetHomepageSpec(files, path, cfg, dryRun, stamp);
            && o.files == files
            && o.result.Err?
            && o.result.error in {DomainRequired, UpstreamAppRequired, InvalidPort(cfg.upstreamPort), InvalidProto(cfg.upstreamProto)}
            && o.result == SetHomepageSpec(map[], path, cfg, dryRun, stamp).result
  {
    if TrimSpace(cfg.domain) == "" {
    } else if TrimSpace(cfg.upstreamApp) == "" {
    } else if cfg.upstreamPort <= 0 || cfg.upstreamPort > 65535 {
    } else {
      assert Validate(cfg) == Some(InvalidProto(cfg.upstreamProto));
    }
  }

  /**
   * The three endings: an unchanged text writes nothing and reports no change;
   * a dry run writes nothing and reports a change; otherwise the backup holds
   * the old text, the file holds the new one, the temporary file is gone and
   * no other file changes.
   */
  lemma CommitEffects(files: map<string, string>, path: string, original: string, updated: string,
                      dryRun: bool, stamp: string)
    requires StampShape(stamp)
    ensures var o := Commit(files, path, original, updated, dryRun, stamp);
            && o.result.Ok?
            && o.result.value.changed == (updated != original)
            && (updated == original || dryRun ==> o.files == files && o.result.value.backupPath == "")
            && (updated != original && !dryRun ==>
                  var backup := BackupPath(path, stamp);
                  && o.result.value.backupPath == backup
                  && path in o.files && o.files[path] == updated
                  && backup in o.files && o.files[backup] == original
                  && TmpPath(path) !in o.files
                  && forall p :: p != path && p != backup && p != TmpPath(path) ==>
                       (p in o.files <==> p in files) && (p in files ==> o.files[p] == files[p]))
  {
    PathsDistinct(path, stamp);
  }

  /** An error from any stage leaves every file as it was. */
  lemma ErrorsTouchNothing(files: map<string, string>, path: string, cfg: HomepageConfig, domain: string,
                           restoreUnderscore: bool, dryRun: bool, stamp: string)
    ensures var o := SetHomepageSpec(files, path, cfg, dryRun, stamp);
            o.result.Err? ==> o.files == files
    ensures var o := ClearHomepageSpec(files, path, domain, restoreUnderscore, dryRun, stamp);
            o.result.Err? ==> o.files == files
  {
    if path in files {
      var name := if cfg.keepServerNameUnderscore then None else Some(cfg.domain);
      DecideErr(files, path, UpdateSpec(files[path], cfg, false, name), dryRun, stamp);
      var clearName := if restoreUnderscore then Some("_") else None;
      DecideErr(files, path, UpdateSpec(files[path], ClearConfig(domain), true, clearName), dryRun, stamp);
    }
  }

  lemma DecideErr(files: map<string, string>, path: string, u: Result<string, EditError>,
                  dryRun: bool, stamp: string)
    requires path in files
    ensures var o := Decide(files, path, u, dryRun, stamp);
            o.result.Err? <==> u.Err?
    ensures var o := Decide(files, path, u, dryRun, stamp);
            o.result.Err? ==> o.files == files
  {
  }

  // ---------------------------------------------------------------------------
  // The editor over a file system

  /** The files the editor reads and writes. */
  class FileSystem {
    var files: map<string, string>

    constructor (files: map<string, string>)
      ensures this.files == files
    {
      this.files := files;
    }
  }

  /** `DefaultSiteEditor`: the path of the default site. */
  class DefaultSiteEditor {
    const path: string

    /** `NewDefaultSiteEditor`. */
    constructor (path: string)
      ensures this.path == path
    {
      this.path := path;
    }

    /** `SetHomepage`. */
    method SetHomepage(fs: FileSystem, cfg: HomepageConfig, dryRun: bool, stamp: string)
      returns (r: Result<EditResult, EditError>)
      modifies fs
      ensures Outcome(r, fs.files) == SetHomepageSpec(old(fs.files), path, cfg, dryRun, stamp)
    {
      if TrimSpace(cfg.domain) == "" {
        return Err(DomainRequired);
      }
      if TrimSpace(cfg.upstreamApp) == "" {
        return Err(UpstreamAppRequired);
      }
      if cfg.upstreamPort <= 0 || cfg.upstreamPort > 65535 {
        return Err(InvalidPort(cfg.upstreamPort));
      }
      if cfg.upstreamProto != "http" && cfg.upstreamProto != "https" {
        return Err(InvalidProto(cfg.upstreamProto));
      }
      if path !in fs.files {
        return Err(ReadFailed(path));
      }
      var original := fs.files[path];
      var name := if cfg.keepServerNameUnderscore then None else Some(cfg.domain);
      var updated := UpdateDefaultSiteConf(original, cfg, false, name);
      if updated.Err? {
        return Err(updated.error);
      }
      r := Finish(fs, original, updated.value, dryRun, stamp);
    }

    /** `ClearHomepage`. */
    method ClearHomepage(fs: FileSystem, domain: string, restoreUnderscore: bool, dryRun: bool, stamp: string)
      returns (r: Result<EditResult, EditError>)
      modifies fs
      ensures Outcome(r, fs.files) == ClearHomepageSpec(old(fs.files), path, domain, restoreUnderscore, dryRun, stamp)
    {
      if path !in fs.files {
        return Err(ReadFailed(path));
      }
      var original := fs.files[path];
      var cfg := HomepageConfig(domain, "", 0, "", false);
      var name := if restoreUnderscore then Some("_") else None;
      var updated := UpdateDefaultSiteConf(original, cfg, true, name);
      if updated.Err? {
        return Err(updated.error);
      }
      r := Finish(fs, original, updated.value, dryRun, stamp);
    }

    /** The shared tail: compare, honour the dry run, back up, replace. */
    method Finish(fs: FileSystem, original: string, updated: string, dryRun: bool, stamp: string)
      returns (r: Result<EditResult, EditError>)
      modifies fs
      ensures Outcome(r, fs.files) == Commit(old(fs.files), path, original, updated, dryRun, stamp)
    {
      if updated == original {
        return Ok(EditResult(false, ""));
      }
      if dryRun {
        return Ok(EditResult(true, ""));
      }
      var backup := BackupFile(fs, path, original, stamp);
      WriteFileAtomic(fs, path, updated);
      return Ok(EditResult(true, backup));
    }
  }

  /** `backupFile`. */
  method BackupFile(fs: FileSystem, path: string, content: string, stamp: string) returns (backup: string)
    modifies fs
    ensures backup == BackupPath(path, stamp)
    ensures fs.files == old(fs.files)[backup := content]
  {
    backup := path + ".bak-" + stamp;
    fs.files := fs.files[backup := content];
  }

  /** `writeFileAtomic`. */
  method WriteFileAtomic(fs: FileSystem, path: string, content: string)
    modifies fs
    ensures fs.files == AtomicWrite(old(fs.files), path, content)
  {
    var tmp := TmpPath(path);
    fs.files := fs.files[tmp := content];
    var moved := fs.files[tmp];
    fs.files := (fs.files - {tmp})[path := moved];
  }
}
