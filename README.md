# swag-cli core, modelled in Dafny

swag-cli manages the nginx configuration of a SWAG (Secure Web Application
Gateway) container. This project models the parts of it that decide what
happens to configuration text and file names, and proves what they promise:

- **The default-site editor** (`internal/nginx/default_site.go`): the
  comment-aware, brace-depth block locator (`findBlocksInRange`,
  `braceDelta`), the choice of the `listen 443 … default_server` main block
  and the `listen 80 … default_server` redirect block, the in-place rewrite of
  the first `server_name` value, the strip-and-inject rewrite of the body of
  `location /`, and the `SetHomepage` / `ClearHomepage` decision to leave the
  file alone, report a dry run, or back it up and replace it
  (modules `BlockLocator`, `DefaultSite`, `LocationRoot`, `Homepage`, `Editor`).
- **The site registry** (`internal/nginx/manager.go`): suffix classification
  of `*.subdomain.conf` / `*.subdomain.conf.disabled`, the extraction of
  `set $upstream_app` / `set $upstream_port` (last match wins), and toggling
  by rename (module `Manager`, over the directory model `Dir`).
- **The generator and its template** (`internal/nginx/generator.go`,
  `templates/templates.go`): the file name, the refusal to overwrite, the
  rendered text, and two cross-file facts — the template's proxy directives are
  exactly what the editor strips and injects, and a generated file is listed
  back with its container and port (modules `Generator`, `Templates`).
- **Export selection** (`internal/swagexport/exclude.go`, `plan.go`): glob to
  regular-expression translation and matching, the exclude list, the
  per-directory include rules, profile gating and `dedupeByRel`
  (modules `Exclude`, `Plan`).
- **Configuration values** (`internal/config/config.go`, `formatConfigDiff`
  and `confirm` in `internal/cli/config.go`): `normalize`, `Keys`, `Get`,
  `Set`, `expandPath`, the load/import fallbacks, and the diff text
  (modules `Config`, `ConfigCli`).

Supporting modules: `Wrappers` (Option/Result), `Text` (the Go `strings`
functions used: `TrimSpace`, `TrimLeft`, `Split`, `Join`, `IndexByte`,
`ToLower`, `Count`, `%d`), `Sorting` (byte-wise string order as
`sort.Strings` uses it).

Strings are sequences of characters; Go's regular expressions are replaced by
hand-written matchers with the same leftmost-first semantics for the patterns
the code uses. The file system is an explicit value (`Dir.DirState`: missing,
unreadable, or an ordered listing of entries) held by a `Directory` object
whose methods change it, and the default-site file lives in a map from paths
to texts. Time stamps and the home directory are parameters.

## Model

| member | source | states |
|---|---|---|
| BlockLocator.Profile | internal/nginx/default_site.go:231-240 | one scan view (does the line match the start pattern, its brace delta counted before the first `#`) per line |
| BlockLocator.CloseIn | internal/nginx/default_site.go:213-220 | the closing offset, when found, is one of the lines scanned |
| BlockLocator.CloseInFirstZero | internal/nginx/default_site.go:213-220 | `CloseIn` returns the first line at which the running depth reaches zero, and `None` means the depth never returns to zero |
| BlockLocator.CloseInOfFirstZero | internal/nginx/default_site.go:213-220 | conversely, the first zero of the running depth is what `CloseIn` returns |
| BlockLocator.ClosesAtBalanced | internal/nginx/default_site.go:209-219 | a block closes exactly at the first later line where the brace sum from its opening line is zero |
| BlockLocator.ScanSound | internal/nginx/default_site.go:204-226 | a successful scan yields blocks that start on matching lines, close at their first balance, are strictly increasing and non-overlapping, and skip no matching line outside a block; a failed scan names a matching line whose braces never balance |
| BlockLocator.ScanErrSound | internal/nginx/default_site.go:222-224 | the error names line `start + 1` of a matching start line whose braces never balance before the end of the range |
| BlockLocator.ScanOkUncovered | internal/nginx/default_site.go:204-218 | after a successful scan, no line of the range outside every block matches the start pattern: lines inside a block are skipped, all others examined |
| BlockLocator.ScanFromScan | internal/nginx/default_site.go:204-226 | scanning from an absolute position is the scan of the slice, shifted by the slice's start |
| BlockLocator.CloseAtIn | internal/nginx/default_site.go:213-220 | the absolute closing line of the inner loop is the slice's `CloseIn` shifted, or -1 when there is none |
| BlockLocator.FindBlocksSound | internal/nginx/default_site.go:192-229 | in terms of the lines: each block lies in the clamped range `[max(from,0), min(to,len-1)]`, starts on a matching line, ends at the first later line where the brace depth returns to zero (so `start < end`), blocks are strictly increasing and disjoint; an error names a matching line that never balances |
| BlockLocator.FindBlocksInRange | internal/nginx/default_site.go:192-229 | the method returns the specified result: empty for an empty clamped range, else the shifted scan of the range |
| BlockLocator.ScanRange | internal/nginx/default_site.go:203-228 | the outer loop returns the scan of the lines `lo..hi`, or the first unclosed block's error |
| BlockLocator.ScanStep | internal/nginx/default_site.go:205-225 | one step passes over a non-matching line, reports an unclosed block, or appends the block and resumes after its end |
| BlockLocator.CloseOf | internal/nginx/default_site.go:209-220 | the inner loop returns the first later line in range where the depth returns to zero, or -1 |
| DefaultSite.SplitLinesPreserve | internal/nginx/default_site.go:353-362 | CRLF becomes LF, one final LF is dropped, the empty text is one empty line, and no resulting line holds a newline |
| DefaultSite.SplitRenderRoundTrip | internal/nginx/default_site.go:353-362 | splitting, joining with LF and adding a final LF exactly when the normalised text had one gives back the CRLF-normalised text |
| DefaultSite.RenderSplitRoundTrip | internal/nginx/default_site.go:176-179 | rendering lines without newlines and splitting again gives back the lines, unless the last line is an empty one the rendering absorbs |
| DefaultSite.ServerNameMatchParts | internal/nginx/default_site.go:243-253 | a match of `^(\s*server_name\s+)([^;]+)(;.*)$` splits the line into its three groups, each of the regex's shape |
| DefaultSite.ServerNameMatchOfParts | internal/nginx/default_site.go:243-253 | any split of a line into the three group shapes is a match; when the value does not start with white space the match has exactly those groups |
| DefaultSite.SetServerName | internal/nginx/default_site.go:242-258 | the array after the loop is the specified rewrite of the block's first candidate line, everything else unchanged |
| DefaultSite.ServerNameSpecEffect | internal/nginx/default_site.go:242-258 | only the first non-blank, non-`#` line in the block starting (after spaces and tabs) with `server_name` and matching the regex changes; it keeps its head and the text from the first `;`, with the new value between; without such a line nothing changes |
| DefaultSite.ServerNameSpecIdempotent | internal/nginx/default_site.go:242-258 | setting the same name twice equals setting it once, for a name not starting with white space |
| DefaultSite.ServerNameSpecReapply | internal/nginx/default_site.go:242-258 | setting one name and then another equals setting the second alone, for a first name not starting with white space; with `_` second this is the `server_name` half of `ClearHomepage` undoing `SetHomepage` |
| DefaultSite.RewrittenThen | internal/nginx/default_site.go:245-255 | once rewritten, the block's first candidate stays first and a second rewrite replaces only the value the first one wrote |
| DefaultSite.RewrittenIsCandidate | internal/nginx/default_site.go:245-254 | a rewritten line passes the blank, comment and prefix tests again and its match gives back the same head, value and rest |
| DefaultSite.ServerNameSpecGrowsOnPaddedName | internal/nginx/default_site.go:243-255 | a name with a leading space is not read back: the next rewrite of the same name makes the line one character longer |
| DefaultSite.ServerNameSpecGrowsOnSemicolon | internal/nginx/default_site.go:243-255 | a name `m;t` is not read back: the next rewrite of the same name repeats `;t` in the line |
| LocationRoot.ShouldRemoveFromLocation | internal/nginx/default_site.go:310-332 | the loop over the needles returns true exactly when the trimmed line is significant and starts with one of the seven needles |
| LocationRoot.HasNeedleIff | internal/nginx/default_site.go:316-330 | starting with the needle list is starting with one of the seven needles |
| LocationRoot.ShouldRemoveSignificant | internal/nginx/default_site.go:311-314 | blank lines and `#` comments are never removed |
| LocationRoot.Without | internal/nginx/default_site.go:272-278 | the kept lines are no more than the input and none of them is removable |
| LocationRoot.WithoutMembers | internal/nginx/default_site.go:272-278 | a line is kept exactly when it was in the body and is not removable |
| LocationRoot.WithoutIdempotent | internal/nginx/default_site.go:272-278 | filtering twice is filtering once |
| LocationRoot.LeadingBlanks | internal/nginx/default_site.go:345-351 | the leading run is a prefix of the line made only of spaces and tabs, and the next character, if any, is neither |
| LocationRoot.LeadingWhitespace | internal/nginx/default_site.go:345-351 | the index loop returns exactly the leading spaces and tabs |
| LocationRoot.LeadingBlanksAt | internal/nginx/default_site.go:345-351 | the leading run is determined by where it stops |
| LocationRoot.FirstSignificantSpec | internal/nginx/default_site.go:334-343 | the index is the first non-blank, non-`#` line, or -1 exactly when there is none |
| LocationRoot.FirstNonCommentNonEmptyIndex | internal/nginx/default_site.go:334-343 | the loop returns the first significant index, or -1 |
| LocationRoot.Directives | internal/nginx/default_site.go:285-299 | one `try_files` directive when clearing, six proxy directives when setting |
| LocationRoot.InjectRemovable | internal/nginx/default_site.go:285-332 | every injected line, for any configuration and indentation of blanks, is removed by `shouldRemoveFromLocation` |
| LocationRoot.PaddedRemovable | internal/nginx/default_site.go:310-332 | a directive behind blank indentation that starts with a needle is removed |
| LocationRoot.ProxyPassParts | internal/nginx/default_site.go:297 | the indented `proxy_pass` line, cut where each `$` variable begins |
| LocationRoot.NewBody | internal/nginx/default_site.go:271-301 | the new body has as many lines as the kept lines and the injected shape together |
| LocationRoot.InsertionPoint | internal/nginx/default_site.go:280-283 | the insertion point is a position of the kept lines, their end included |
| LocationRoot.NewBodyInsertion | internal/nginx/default_site.go:280-301 | the new body is the kept lines with the shape inserted before the first significant kept line, or at the end |
| LocationRoot.NewBodyKeeps | internal/nginx/default_site.go:272-301 | filtering the new body gives back the filtered old body: kept lines stay, in their order, and nothing else does |
| LocationRoot.NewBodyReapply | internal/nginx/default_site.go:260-307 | rewriting an already rewritten body with a second configuration equals rewriting the original with it |
| LocationRoot.UpdateLocationRoot | internal/nginx/default_site.go:260-308 | the method returns the specified lines: unchanged when `End-Start < 2`, else the lines up to the location line, the new body, and the lines from the closing line on |
| LocationRoot.KeptLines | internal/nginx/default_site.go:271-278 | the body loop collects exactly the non-removable lines, in order |
| LocationRoot.AssembleSpec | internal/nginx/default_site.go:303-307 | the three appended pieces make up the specified lines |
| LocationRoot.LocationRootFrame | internal/nginx/default_site.go:260-307 | lines up to and including the `location` line and from its closing line on are unchanged; the lines between are the new body |
| LocationRoot.LocationRootReapply | internal/nginx/default_site.go:260-307 | rewriting the rewritten location again gives what one rewrite with the second configuration gives, so the same configuration twice is idempotent |
| Homepage.ContainsNonComment | internal/nginx/default_site.go:364-375 | the loop is true exactly when some non-blank, non-`#` line of the body contains the needle |
| Homepage.NonCommentOfJoined | internal/nginx/default_site.go:137-138 | searching the LF-joined text of a block's lines is searching those lines |
| Homepage.NonCommentWeaker | internal/nginx/default_site.go:142-146 | the test is a substring test: lines passing it for a longer needle pass it for any needle inside that one |
| Homepage.Listen8080HoldsListen80 | internal/nginx/default_site.go:145 | a block with `listen 8080 default_server` qualifies as the redirect block |
| Homepage.LastWhere | internal/nginx/default_site.go:135-148 | the index is the last block passing the test, or -1 when none does |
| Homepage.SelectServers | internal/nginx/default_site.go:135-148 | the main and redirect blocks are each the LAST block whose non-comment text holds `default_server` and `listen 443` (resp. `listen 80`) |
| Homepage.Renamed | internal/nginx/default_site.go:154-159 | the two `server_name` rewrites keep the number of lines |
| Homepage.SetServerNames | internal/nginx/default_site.go:154-159 | the two in-place `setServerName` calls leave the lines `Renamed` specifies |
| Homepage.ServerStage | internal/nginx/default_site.go:132-175 | choosing the blocks, renaming and rewriting gives the specified result, with the error for a missing main block |
| Homepage.LocationStage | internal/nginx/default_site.go:161-180 | the `location /` search in the main block, its error when absent, the rewrite and the final join with the trailing LF restored |
| Homepage.UpdateDefaultSiteConf | internal/nginx/default_site.go:122-181 | the method returns the specified text or error: block-locator errors, a missing main 443 block, a missing `location /` |
| Editor.Validate | internal/nginx/default_site.go:34-45 | a blank domain, a blank upstream app, a port outside 1..65535 and a protocol other than `http`/`https` are each refused, in that order |
| Editor.ValidateAcceptsUnstableDomain | internal/nginx/default_site.go:34-36 | whenever a trimmed domain passes, the same domain with a leading space, or with a `;` appended, passes too |
| Editor.ValidateIntended | internal/nginx/default_site.go:34-45 | the corrected checks accept exactly what `Validate` accepts with a domain that is already trimmed and holds no `;`, and report `Validate`'s error first |
| Editor.IntendedDomainReapply | internal/nginx/default_site.go:152-159 | a domain the corrected checks accept is written so that setting it again, or setting any other name after it, equals setting that name once |
| Editor.SetHomepageValidatesFirst | internal/nginx/default_site.go:33-47 | a configuration failing a check is refused before the file is read, whatever the files hold, and nothing changes |
| Editor.CommitEffects | internal/nginx/default_site.go:62-79 | an unchanged text writes nothing and reports `Changed=false`; a dry run writes nothing and reports `Changed=true`; otherwise the backup holds the original, the file holds the new text, the temporary file is gone, and the backup path is returned |
| Editor.ErrorsTouchNothing | internal/nginx/default_site.go:47-77 | a read error or an edit error leaves every file as it was |
| Editor.PathsDistinct | internal/nginx/default_site.go:377-400 | the file, its backup and its temporary file are three different paths |
| Editor.DefaultSiteEditor.constructor | internal/nginx/default_site.go:24-26 | the editor holds the given path |
| Editor.DefaultSiteEditor.SetHomepage | internal/nginx/default_site.go:33-80 | the result and the new files are those specified: validation, read, update with the domain as override unless the underscore is kept, then commit |
| Editor.DefaultSiteEditor.ClearHomepage | internal/nginx/default_site.go:82-120 | the result and the new files are those specified: read, update in clear mode with `_` as override when restoring, then commit |
| Editor.DefaultSiteEditor.Finish | internal/nginx/default_site.go:62-79 | the shared tail compares, honours the dry run, backs up and replaces as `Commit` specifies |
| Editor.BackupFile | internal/nginx/default_site.go:377-386 | returns `<path>.bak-<stamp>` and writes the original content there, nothing else changing |
| Editor.WriteFileAtomic | internal/nginx/default_site.go:388-400 | the files after writing `.<base>.tmp` and renaming it over the file: the file holds the content, the temporary file is gone, all else as before |
| Manager.MatchAt | internal/nginx/manager.go:96-97 | a capture of `set\s+<key>\s+([^;]+);` at a position is non-empty and holds no `;` |
| Manager.FirstCapture | internal/nginx/manager.go:102-106 | the leftmost capture is non-empty and holds no `;` |
| Manager.NoDollarNoCapture | internal/nginx/manager.go:96-97 | a line without `$` never matches |
| Manager.OneDollarNoCapture | internal/nginx/manager.go:96-97 | a line whose only `$` starts a word differing from the key has no match |
| Manager.ThreeDollarsNoCapture | internal/nginx/manager.go:96-97 | the `proxy_pass $upstream_proto://$upstream_app:$upstream_port;` shape matches neither key |
| Manager.CaptureOfDirective | internal/nginx/manager.go:96-106 | `pad + "set" + sp + key + sp2 + v + ";" + rest` captures `v` when `pad` holds no `s` and `v` is non-empty without `;` and not starting with white space |
| Manager.SkipToCapture | internal/nginx/manager.go:102-106 | positions that cannot start `set` are passed over by the leftmost search |
| Manager.FieldSnoc | internal/nginx/manager.go:100-107 | one more line's capture, trimmed, replaces the field; without one the field is kept |
| Manager.FieldLastMatch | internal/nginx/manager.go:100-108 | the last matching line decides the field; earlier lines do not matter |
| Manager.FieldNoMatch | internal/nginx/manager.go:82-108 | without a matching line the field keeps its value (empty for a new record) |
| Manager.FieldUnmatchedTail | internal/nginx/manager.go:100-108 | lines after the last match change nothing |
| Manager.ParseConfigDetails | internal/nginx/manager.go:82-109 | the scanner loop yields the record with both fields set from the file's lines; a file that cannot be opened leaves the record as it was |
| Manager.DisabledNotEnabled | internal/nginx/manager.go:58-67 | a disabled file name never also ends like an enabled one, so each file gets one status |
| Manager.RecordClassifies | internal/nginx/manager.go:50-76 | only non-directory entries ending in one of the two suffixes give records; the name is the file name without the suffix and the status is the suffix's |
| Manager.RecordNamed | internal/nginx/manager.go:58-74 | a record named `sub` comes from `sub.subdomain.conf` or `sub.subdomain.conf.disabled` |
| Manager.RecordOfSuffix | internal/nginx/manager.go:58-75 | the file `sub + suffix` gives the record named `sub` with that suffix's status |
| Manager.SitesMembers | internal/nginx/manager.go:49-78 | the records are exactly those of the qualifying entries |
| Manager.SitesSorted | internal/nginx/manager.go:49-78 | records come in the directory's order, so their file names strictly increase |
| Manager.LookupListed | internal/nginx/manager.go:49-78 | a file held under a name whose record is `s` is listed as `s` |
| Manager.FirstNamed | internal/nginx/manager.go:121-127 | the index is -1 or a record named `sub` with none named so before it |
| Manager.FindNamed | internal/nginx/manager.go:121-127 | the search loop returns the first record named `sub`, or -1 |
| Manager.ToggleErrorsChangeNothing | internal/nginx/manager.go:116-131 | every failure of `ToggleSite` leaves the directory as it was |
| Manager.ToggleNotFound | internal/nginx/manager.go:129-131 | "site not found" arises exactly when neither of the site's two files is there |
| Manager.ToggleRenames | internal/nginx/manager.go:133-152 | a successful toggle renames the site's file to the other suffix with the same content and returns the other status; every other name is untouched |
| Manager.ToggleBack | internal/nginx/manager.go:133-152 | toggling a site whose only file has the other suffix renames it back |
| Manager.ToggleTwice | internal/nginx/manager.go:115-153 | toggling twice restores the original directory when the site had only one of its two files |
| Manager.ToggleTwiceFrom | internal/nginx/manager.go:115-153 | the second toggle, from the listing the first left, restores the first listing and returns the original status |
| Manager.Manager.constructor | internal/nginx/manager.go:35-37 | the manager holds the given base path |
| Manager.Manager.ListSites | internal/nginx/manager.go:40-79 | a missing directory lists nothing without error, an unreadable one is an error, otherwise one record per qualifying file in directory order |
| Manager.Manager.ToggleSite | internal/nginx/manager.go:115-153 | the result and the new directory are those specified: the first record named `sub` is renamed to its other suffix, or an error changes nothing |
| Generator.ConfigFilename | internal/nginx/generator.go:50 | the file name ends `.subdomain.conf` and is the subdomain once that suffix is removed, so `ListSites` reads the subdomain back |
| Generator.ConfigPath | internal/nginx/generator.go:51 | the joined path ends with the file name |
| Generator.Generator.constructor | internal/nginx/generator.go:27-29 | the generator holds the given base path |
| Generator.Generator.GenerateConfig | internal/nginx/generator.go:32-64 | the result and the new directory are those specified |
| Generator.GenerateEffect | internal/nginx/generator.go:32-64 | generation succeeds exactly on a listed directory without the file and for a subdomain without `/`, which otherwise fails as a write; the file then holds the rendered template and nothing else changes; every failure changes nothing |
| Generator.GenerateTwiceRefused | internal/nginx/generator.go:53-56 | a second generation of the same subdomain is refused as already existing and leaves the first file intact |
| Generator.UpstreamCaptures | templates/templates.go:44-47 | in the template, `set $upstream_app` captures the container name and `set $upstream_port` the port's digits, and the `proxy_pass` line matches neither |
| Generator.ScannedTemplate | templates/templates.go:42-53 | read line by line, the rendered file shows the upstream lines unchanged and after them only lines without `$` when the extra configuration has none |
| Generator.ReadUpstream | internal/nginx/manager.go:99-108 | upstream lines followed by `$`-free lines leave the fields at the trimmed captures of the app and port lines |
| Generator.RenderedDetails | internal/nginx/manager.go:82-109 | reading the rendered file as `ListSites` does gives back the container name, trimmed, and the port in decimal |
| Generator.GeneratedSiteListed | internal/nginx/generator.go:50-63 | after a successful generation, listing shows the new site enabled, under its subdomain and file name, with its container and port |
| Templates.ServerHead | templates/templates.go:11-29 | the header and server block up to `location /` has its 19 lines |
| Templates.ProxyLines | templates/templates.go:42-47 | the six proxy directives |
| Templates.TailLines | templates/templates.go:48-53 | the end of `location /`, the extra configuration line and the end of `server` |
| Templates.TemplateLines | templates/templates.go:11-53 | the template has 43 lines, the extra configuration counted as one |
| Templates.TemplateDirectivesAreInjected | templates/templates.go:42-47 | the six directives are, character for character, the lines the editor injects under `    location / {` for the same container, port and protocol, and the editor strips each of them |
| Templates.LocationLineMatches | templates/templates.go:30 | `    location / {` matches the editor's `location /` start pattern |
| Templates.CommentedAlternativesKept | templates/templates.go:31-40 | the commented auth and Authelia alternatives, and the blank lines between them, are never removed by the editor |
| Exclude.GlobToRegexp | internal/swagexport/exclude.go:55-94 | the method returns the specified result: an error for a glob empty once trimmed and stripped of one leading `/`, else the compiled anchored expression |
| Exclude.Translate | internal/swagexport/exclude.go:62-92 | the rune loop builds `^`, the translation of each token, and `$` |
| Exclude.TokensAt | internal/swagexport/exclude.go:69-89 | one step: `**` gives `.*` and consumes two runes, `*` gives `[^/]*`, `?` gives `[^/]`, the twelve metacharacters are escaped, anything else is copied |
| Exclude.CompileOfGlob | internal/swagexport/exclude.go:62-93 | compiling the anchored source gives back the glob's tokens, so the translation loses nothing |
| Exclude.ParseBodyOfBody | internal/swagexport/exclude.go:69-89 | reading the translated text back gives the tokens |
| Exclude.LiteralGlob | internal/swagexport/exclude.go:83-89 | a glob without `*` or `?` matches exactly its own text |
| Exclude.SegmentStar | internal/swagexport/exclude.go:75 | `*` alone matches exactly the runs without `/` |
| Exclude.DeepStar | internal/swagexport/exclude.go:70-71 | `**` alone matches exactly the runs without a newline, slashes included |
| Exclude.SegmentWithinDeep | internal/swagexport/exclude.go:69-76 | whatever `*` matches, `**` matches too |
| Exclude.Trimmed | internal/swagexport/exclude.go:16-17 | each pattern trimmed, one for one |
| Exclude.Globs | internal/swagexport/exclude.go:56-57 | each cleaned pattern with blanks and one leading `/` removed, one for one |
| Exclude.NewExcluder | internal/swagexport/exclude.go:14-40 | the method returns the specified excluder, nil, or error |
| Exclude.NonEmptySnoc | internal/swagexport/exclude.go:15-22 | a cleaned pattern is exactly a non-blank pattern, trimmed |
| Exclude.CompileGlobsErrSticky | internal/swagexport/exclude.go:28-32 | the first pattern that fails decides the error |
| Exclude.CompileAllOk | internal/swagexport/exclude.go:27-34 | the cleaned patterns compile exactly when none is empty once its leading `/` is removed |
| Exclude.CompileAllValues | internal/swagexport/exclude.go:27-34 | when nothing fails, the compiled list holds each pattern's tokens in order |
| Exclude.NewExcluderFails | internal/swagexport/exclude.go:28-32 | `newExcluder` fails exactly when some pattern is `/` once trimmed |
| Exclude.NewExcluderNil | internal/swagexport/exclude.go:23-25 | the nil excluder arises exactly when every pattern is blank |
| Exclude.IsExcluded | internal/swagexport/exclude.go:42-53 | false for the nil excluder, else true when some compiled glob matches the trimmed path without its leading `/` |
| Exclude.ExcludedMeaning | internal/swagexport/exclude.go:42-52 | a built excluder skips a path exactly when one non-blank pattern, as a glob, matches the cleaned path |
| Exclude.SingleFileExcluded | internal/swagexport/exclude.go:42-52 | a single wildcard-free pattern excludes that one file and nothing else, whatever blanks or leading `/` either side carries |
| Plan.ProxyConfCaseBlind | internal/swagexport/plan.go:121-133 | the proxy-confs filter ignores letter case |
| Plan.ProxyConfOnlyNarrows | internal/swagexport/plan.go:129-132 | asking for configuration files only never lets more files through |
| Plan.SampleNeverExported | internal/swagexport/plan.go:125-127 | a name with `sample` or `example` anywhere, in any case, is never exported from proxy-confs |
| Plan.Fail2banKept | internal/swagexport/plan.go:175-187 | the fail2ban filter keeps a file exactly when its lower-cased name ends `.conf` or `.local` |
| Plan.NewestSpec | internal/swagexport/plan.go:243-252 | the map holds one key per path present, and each key's entry is that path's winner |
| Plan.WinnerUnique | internal/swagexport/plan.go:245-249 | a path has at most one winner: the latest, and the first seen among equally late ones |
| Plan.KeptMeaning | internal/swagexport/plan.go:242-257 | an entry is kept exactly when it is the winner of its path |
| Plan.KeptPaths | internal/swagexport/plan.go:242-257 | every path of the input keeps an entry, and only those paths |
| Plan.KeptFromInput | internal/swagexport/plan.go:242-257 | a kept entry is one of the input entries |
| Plan.InsertByRelPerm | internal/swagexport/plan.go:258 | inserting adds exactly the new entry |
| Plan.InsertByRelSorted | internal/swagexport/plan.go:258 | inserting an entry of a new path keeps the sequence path-sorted |
| Plan.SortByRel | internal/swagexport/plan.go:258 | the sort returns a path-sorted permutation of its input |
| Plan.DedupeByRel | internal/swagexport/plan.go:242-260 | the output is strictly sorted by path and holds exactly the kept entries |
| Plan.AddFileAdmissible | internal/swagexport/plan.go:31-61 | `addFile` adds only a regular, non-excluded file under a relative path other than `.` and outside `config/log/` |
| Plan.WalkSpecAdmissible | internal/swagexport/plan.go:75-101 | every file a directory walk adds is admissible |
| Plan.TopLevelAdmissible | internal/swagexport/plan.go:212-237 | every top-level nginx file added is admissible |
| Plan.StepsAdmissible | internal/swagexport/plan.go:121-190 | every file the profile's directories add is admissible |
| Plan.CandidatesAdmissible | internal/swagexport/plan.go:30-190 | every collected file: no empty or `.` path, nothing excluded, nothing under `config/log/` |
| Plan.ProfileGating | internal/swagexport/plan.go:121-190 | proxy-confs, site-confs and the default site are always exported; the five standard directories exactly for `standard` and `full`; fail2ban exactly for `full` |
| Plan.SecretsGating | internal/swagexport/plan.go:162-173 | dns-conf, keys and letsencrypt are exported exactly for `full` with secrets requested |
| Plan.PlanBuilder.AddFile | internal/swagexport/plan.go:31-61 | appends exactly what `addFile` admits for this path and file information |
| Plan.PlanBuilder.AddFileIfExists | internal/swagexport/plan.go:196-204 | appends the file when it exists, nothing when it does not |
| Plan.PlanBuilder.AddDirFiltered | internal/swagexport/plan.go:63-102 | appends the walk of the directory when it is there, nothing when it is missing or not a directory |
| Plan.PlanBuilder.AddWalked | internal/swagexport/plan.go:75-101 | one visited item: directories and `config/log/` paths are skipped, then the filter, then `addFile` |
| Plan.PlanBuilder.AddSteps | internal/swagexport/plan.go:121-190 | appends each source's files in turn |
| Plan.PlanBuilder.AddNginxTopLevelFiles | internal/swagexport/plan.go:206-240 | appends the selected top-level files in listing order |
| Plan.PlanBuilder.AddNginxTopLevelEntry | internal/swagexport/plan.go:212-237 | a non-directory named `*.conf`, `*.pem` (any case) or exactly `.htpasswd`, not excluded, is added |
| Plan.PlanBuilder.Finish | internal/swagexport/plan.go:117-193 | after the top-level files and the profile's directories, the result is sorted and holds exactly the kept entries |
| Plan.CollectPlan | internal/swagexport/plan.go:104-193 | an error exactly when the nginx directory is not a directory, naming which; otherwise sorted, exactly the kept candidates, all admissible |
| Plan.BuildFilePlan | internal/swagexport/plan.go:13-194 | fails exactly as `PlanFailure` says; otherwise sorted by path, exactly the kept candidates, all admissible |
| Config.DefaultNormal | internal/config/config.go:20-26 | the defaults are normal: every field non-empty and trimmed |
| Config.NormalizeNormal | internal/config/config.go:346-362 | a normalised configuration has every field non-empty and trimmed, each the trimmed input or the default |
| Config.NormalizeOfNormal | internal/config/config.go:346-362 | `normalize` leaves a normal configuration as it is |
| Config.NormalizeIdempotent | internal/config/config.go:346-362 | normalising twice is normalising once |
| Config.KeysSorted | internal/config/config.go:299-307 | `Keys` is `network`, `swag-container`, `swag-dir`: each declared key once, strictly sorted |
| Config.GetKnown | internal/config/config.go:309-320 | a key is known exactly when its trimmed, lower-cased form is listed; an unknown key gives `("", false)` |
| Config.NormalizeKeyOfPlain | internal/config/config.go:342-344 | a key without surrounding white space or capitals is its own normalised form |
| Config.GetSwagDir | internal/config/config.go:311-312 | `Get` of `swag-dir` reads the directory field |
| Config.GetSwagContainer | internal/config/config.go:313-314 | `Get` of `swag-container` reads the container field |
| Config.GetNetwork | internal/config/config.go:315-316 | `Get` of `network` reads the network field |
| Config.GetDetermines | internal/config/config.go:309-320 | two configurations agreeing on every key are equal |
| Config.Set | internal/config/config.go:322-340 | a nil configuration and an unknown key are errors that change nothing; otherwise `Get` of the key reads the trimmed value and every other key reads what it did |
| Config.LookupOthers | internal/config/config.go:327-339 | changing the field a key names leaves every other key's value as it was |
| Config.ExpandTilde | internal/config/config.go:124-131 | `~/x` and `~\x` become the home directory joined with `x`; `~` becomes the home directory |
| Config.ExpandOther | internal/config/config.go:123-134 | every other path, and every path when the home directory is unknown, is unchanged |
| Config.ExpandIdempotent | internal/config/config.go:123-134 | with a home directory not starting with `~`, expanding twice is expanding once |
| Config.LoadFromFallbacks | internal/config/config.go:157-181 | a missing or blank file loads the defaults without error; a file that cannot be opened or read, or is not JSON, gives the defaults with an error naming the cleaned path; a mistyped field gives the fields that did decode over the defaults, with an error |
| Config.LoadedNormal | internal/config/config.go:176-181 | an imported configuration is always normal; a loaded one is normal unless a field had the wrong type |
| Config.ImportVersusLoad | internal/config/config.go:271-297 | importing fails where loading succeeds on a missing or blank file, reports an open failure where loading reports a read failure, gives the defaults on a type error, and otherwise agrees with loading |
| Config.BlankPathIsDot | internal/config/config.go:158-162 | a blank path is cleaned to `.`, the name the read and open errors then show |
| Config.LoadFromKeepsMistypedFields | internal/config/config.go:176-178 | a file whose directory decodes as `""` and whose container is a number loads as neither the defaults nor a normal configuration |
| Config.LoadFromIntendedFallbacks | internal/config/config.go:152-156 | the corrected `LoadFrom` reports the same errors, gives the defaults with every error, and always gives a normal configuration |
| Config.SaveLoadRoundTrip | internal/config/config.go:195-208 | loading what was saved gives back the normalised configuration |
| Config.ExportImportRoundTrip | internal/config/config.go:229-248 | importing what was exported, pretty or not, gives back the normalised configuration |
| ConfigCli.FormatConfigDiff | internal/cli/config.go:219-233 | the text is the diff lines of the sorted keys joined by LF |
| ConfigCli.CollectLines | internal/cli/config.go:223-231 | the loop collects one line per key whose trimmed values differ, in key order |
| ConfigCli.DiffLinesOfDiffering | internal/cli/config.go:224-231 | the lines are `- <key>: <old> -> <new>` with the untrimmed values, for the differing keys in order |
| ConfigCli.DifferingMembers | internal/cli/config.go:227-229 | a key is among the differing ones exactly when it is listed and its trimmed values differ |
| ConfigCli.DiffEmptyIff | internal/cli/config.go:219-233 | the diff is empty exactly when every key has the same trimmed value in both configurations |
| ConfigCli.DiffKeysSorted | internal/cli/config.go:220-231 | the differing keys come in strictly increasing order, each once |
| ConfigCli.JoinEmpty | internal/cli/config.go:232 | joining non-empty lines gives the empty text only for no lines |
| ConfigCli.LinesNonEmpty | internal/cli/config.go:230 | every diff line is non-empty |
| ConfigCli.YesForms | internal/cli/config.go:243-244 | yes exactly when the trimmed answer is `y` or `yes` in any mix of case; a blank answer is no |
| ConfigCli.YesCaseBlind | internal/cli/config.go:243-244 | surrounding white space and letter case do not change the answer |
| Dir.Lookup | internal/nginx/manager.go:41-50 | a name found is listed with that node; a name not found is nowhere in the listing |
| Dir.PutOrdered | internal/nginx/generator.go:59 | writing a name keeps the listing ordered |
| Dir.RemoveOrdered | internal/nginx/manager.go:148 | removing a name keeps the listing ordered |
| Dir.LookupPut | internal/nginx/generator.go:59 | after a write the name holds the new node and every other name what it held |
| Dir.RenameEffect | internal/nginx/manager.go:148 | after a rename the new name holds what the old held, the old holds nothing, the rest is unchanged |
| Dir.RenameBackRestores | internal/nginx/manager.go:148 | renaming back to a name that was free restores the listing |
| Dir.OrderedExtensional | internal/nginx/manager.go:41 | two ordered listings holding the same under every name are the same listing |
| Dir.Directory.Rename | internal/nginx/manager.go:148-150 | `os.Rename` of a present name changes the state as specified, replacing a file already under the new name; a missing source, a folder as target or an unlisted directory is an error and no change |
| Dir.Directory.WriteFile | internal/nginx/generator.go:59-61 | `os.WriteFile` changes the state as specified, or fails on a missing or unreadable directory, a folder, or a name inside a sub-directory, and changes nothing |
| Dir.Directory.Stat | internal/nginx/generator.go:54 | a name is found exactly when the listing holds it |
| Dir.Directory.Exists | internal/nginx/generator.go:34 | the directory is reported missing exactly when it is |

## Left out

- File-system effects are values, not calls: `os.ReadFile`, `WriteFile`, `Rename`, `ReadDir`, `WalkDir`, `Stat` and `Lstat` read or change an explicit state; permissions, modes, sizes, symlinks beyond a flag, and crashes between steps are not modelled.
- `filepath.Join`, `Clean`, `Rel` and `ToSlash` are reduced to joining with `/`: no `..` or duplicate separators are resolved.
- Editor.WriteFileAtomic: the editor's files are a map that accepts every write and rename, so the write and rename failures of `backupFile` and `writeFileAtomic`, and the removal of the temporary file after a failed rename, are not modelled.
- The time stamp of the backup name (`time.Now`) and the home directory (`os.UserHomeDir`) are parameters.
- JSON encoding and decoding: a saved or exported file is any non-blank text the decoder reads back as the configuration; what decoding finds (a syntax error, the fields present, or a type error with the fields that did decode) is an input.
- `text/template` is replaced by the literal concatenation of the template's lines and fields; template parse and execute errors, which cannot arise for the constant template, are not modelled.
- Go's regular-expression engine is replaced by matchers for the exact patterns the code compiles; only the glob expressions' anchored language is modelled for `globToRegexp`, not general RE2.
- `strings.ToLower` is modelled on ASCII letters only; other Unicode case mappings are left out.
- Plan.EqualFold: `strings.EqualFold` folds every Unicode letter, the model only ASCII letters, so a name differing from `README.md` or `fail2ban.sqlite3` by a non-ASCII fold (such as the long `ſ` for `s`) is treated differently.
- The order Go's map iteration gives `dedupeByRel`'s values is irrelevant, because the output is sorted afterwards; only the sorted result is modelled.
- The second `sort.Strings` in `formatConfigDiff` sorts an already sorted list and is modelled as the identity.
- The `cleanPath == ""` branches of `LoadFrom`, `SaveTo`, `ExportTo` and `ImportFrom` are dead (`filepath.Clean` never returns the empty string) and are not modelled.
- `confirm`'s prompt printing and standard-input read are left out; only the yes/no decision on the read answer is modelled.
- Homepage.UpdateDefaultSiteConf: idempotence of the whole file rewrite, and `ClearHomepage` with `restoreUnderscore` undoing `SetHomepage`, are proved per stage (LocationRoot.LocationRootReapply, DefaultSite.ServerNameSpecReapply), not for the composed pipeline, which would also need the block locator to find the same blocks in the rewritten text and the redirect and main rewrites to commute when the blocks overlap.
- DefaultSite.ServerNameSpecIdempotent: holds only for names that do not start with white space and hold no `;`; `Validate` lets other domains through and the rewrite then grows the line on every run (see Findings).
- Generator.GenerateConfig: a subdomain holding `/` is taken as a failed write; when the sub-directories it names exist, the source writes the file inside them and returns its path, but the directory model holds no sub-directory contents and `ListSites` would not list the file.
- Plan.BuildFilePlan: the errors of `os.Lstat` in `addFile`, of a `Stat` that fails other than not-exist in `addFileIfExists` and `addDirFiltered`, of `WalkDir`'s callback, and of `os.ReadDir` in `addNginxTopLevelFiles` are not modelled; the file-system value holds only what those calls return on success.
- Plan.PlanBuilder.AddFileIfExists, Plan.PlanBuilder.AddDirFiltered: a failed `Stat` other than not-exist is not modelled (see Plan.BuildFilePlan).
- Manager.ParseConfigDetails: `bufio.Scanner` stops at the first line longer than 64 KiB, ending the scan early with the fields found so far; the model reads every line.
- Config.LoadFrom: on a JSON type error the source returns the fields that did decode, not normalised, contrary to its own documentation (see Findings); Config.LoadFromIntended is the documented behaviour.
- Templates.TemplateLines: the balance of the rendered template's braces, and hence that `findBlocks` locates its server block, is not proved.
- The interactive wizard, the cobra command handlers, the Docker client, the HTTP probe, the zip and manifest writer and the build script are outside the modelled core.

## Findings

| source | as written | input that shows it | evidently intended | confidence | as-written member | corrected member |
|---|---|---|---|---|---|---|
| internal/nginx/default_site.go:34-36 | `SetHomepage` only requires the trimmed domain to be non-empty, and `setServerName` writes the domain as given between the regex's head and rest | domain ` example.com` (or `a;b`) on a default site whose main block holds `server_name _;`: every run of `SetHomepage` adds one more space (or one more `;b`) to the line and reports a change | the domain is trimmed and free of `;`, so that a second `SetHomepage` with the same domain changes nothing | not executed | Editor.ValidateAcceptsUnstableDomain, DefaultSite.ServerNameSpecGrowsOnPaddedName, DefaultSite.ServerNameSpecGrowsOnSemicolon | Editor.ValidateIntended, Editor.IntendedDomainReapply |
| internal/config/config.go:176-178 | on a `json.Unmarshal` error `LoadFrom` returns the configuration `Unmarshal` has partly filled, without `normalize` | the file `{"swagDir": "", "swagContainer": 1}`: the directory comes back empty, with the parse error | the defaults with the error, as the comment at internal/config/config.go:152-156 promises for every read or parse failure | not executed | Config.LoadFrom, Config.LoadFromKeepsMistypedFields | Config.LoadFromIntended, Config.LoadFromIntendedFallbacks |
