/**
 * The generator of internal/nginx/generator.go: it renders the proxy template
 * for a subdomain and writes it as `<subdomain>.subdomain.conf` into the
 * proxy-confs directory, refusing to touch a file that is already there.
 */
module Generator {
  import opened Wrappers
  import opened Text
  import opened Dir
  import opened Manager
  import opened Templates
  import opened LocationRoot

  datatype GenError =
    | DirMissing(basePath: string)
    | FileExists(path: string)
    | WriteFailed(path: string)

  /** The file a site is written to: `<subdomain>.subdomain.conf`. */
  function ConfigFilename(data: ConfigData): (r: string)
    ensures HasSuffix(r, EnabledSuffix) && TrimSuffix(r, EnabledSuffix) == data.subdomain
    ensures '/' in r <==> '/' in data.subdomain
  {
    var r := data.subdomain + EnabledSuffix;
    assert r[|r| - |EnabledSuffix|..] == EnabledSuffix && r[..|r| - |EnabledSuffix|] == data.subdomain;
    assert '/' !in EnabledSuffix;
    assert forall i :: 0 <= i < |data.subdomain| ==> r[i] == data.subdomain[i];
    r
  }

  /** `filepath.Join(basePath, filename)`, an empty base giving the name alone. */
  function ConfigPath(basePath: string, data: ConfigData): (r: string)
    ensures HasSuffix(r, ConfigFilename(data))
  {
    var f := ConfigFilename(data);
    var r := if basePath == "" then f else basePath + "/" + f;
    assert r[|r| - |f|..] == f;
    r
  }

  /**
   * What `GenerateConfig` returns and leaves in the directory: an error for a
   * missing directory, an error for a name already taken, an error when the
   * write fails (a subdomain holding `/` included), and otherwise the path of
   * the rendered file it wrote.
   */
  function GenerateSpec(d: DirState, basePath: string, data: ConfigData): (Result<string, GenError>, DirState) {
    var name := ConfigFilename(data);
    var path := ConfigPath(basePath, data);
    if d.Missing? then (Err(DirMissing(basePath)), d)
    else if d.Present? && Lookup(d.entries, name).Some? then (Err(FileExists(path)), d)
    else
      match WriteSpec(d, name, RenderTemplate(data))
      case None => (Err(WriteFailed(path)), d)
      case Some(d') => (Ok(path), d')
  }

  /** The generator for one proxy-confs directory. */
  class Generator {
    const basePath: string

    /** `NewGenerator`. */
    constructor(basePath: string)
      ensures this.basePath == basePath
    {
      this.basePath := basePath;
    }

    /** `GenerateConfig`. */
    method GenerateConfig(dir: Directory, data: ConfigData) returns (r: Result<string, GenError>)
      modifies dir
      ensures (r, dir.state) == GenerateSpec(old(dir.state), basePath, data)
    {
      var present := dir.Exists();
      if !present {
        return Err(DirMissing(basePath));
      }
      var text := RenderTemplate(data);
      var filename := ConfigFilename(data);
      var fullPath := ConfigPath(basePath, data);
      var taken := dir.Stat(filename);
      if taken {
        return Err(FileExists(fullPath));
      }
      var ok := dir.WriteFile(filename, text);
      if !ok {
        return Err(WriteFailed(fullPath));
      }
      return Ok(fullPath);
    }
  }

  // ---------------------------------------------------------------------------
  // What a generation does to the directory

  /**
   * Generation succeeds exactly on a listed directory without the file, for a
   * subdomain without `/`; then the file holds the rendered template and nothing
   * else changes. Every failure leaves the directory as it was.
   */
  lemma GenerateEffect(d: DirState, basePath: string, data: ConfigData, n: string)
    requires d.Present? ==> Ordered(d.entries)
    ensures var (r, d') := GenerateSpec(d, basePath, data);
      && (r.Ok? <==> d.Present? && Lookup(d.entries, ConfigFilename(data)).None? && '/' !in data.subdomain)
      && (d.Present? && Lookup(d.entries, ConfigFilename(data)).None? && '/' in data.subdomain ==>
            r == Err(WriteFailed(ConfigPath(basePath, data))))
      && (r.Ok? ==> r.value == ConfigPath(basePath, data))
      && (r.Err? ==> d' == d)
      && (r == Err(DirMissing(basePath)) <==> d.Missing?)
      && (r.Ok? ==> d'.Present? && Ordered(d'.entries))
      && (r.Ok? ==>
            Lookup(d'.entries, n) == if n == ConfigFilename(data) then Some(File(RenderTemplate(data))) else Lookup(d.entries, n))
  {
    if d.Present? && Lookup(d.entries, ConfigFilename(data)).None? && '/' !in data.subdomain {
      WriteEffect(d.entries, ConfigFilename(data), RenderTemplate(data), n);
    }
  }

  /** A second generation of the same subdomain is refused and changes nothing. */
  lemma GenerateTwiceRefused(d: DirState, basePath: string, data: ConfigData)
    requires d.Present? ==> Ordered(d.entries)
    requires GenerateSpec(d, basePath, data).0.Ok?
    ensures var d1 := GenerateSpec(d, basePath, data).1;
      GenerateSpec(d1, basePath, data) == (Err(FileExists(ConfigPath(basePath, data))), d1)
  {
    GenerateEffect(d, basePath, data, ConfigFilename(data));
  }

  // ---------------------------------------------------------------------------
  // The generated file as the registry reads it back

  /** The four lines of `location /` that set the upstream and pass to it. */
  function UpstreamLines(data: ConfigData): (r: seq<string>)
    ensures |r| == 4
  {
    ProxyLines(data)[2..]
  }

  /** `%d` never starts with white space and never ends with it. */
  lemma IntToStringShape(i: int)
    ensures var s := IntToString(i);
      s != [] && !IsRegexSpace(s[0]) && ';' !in s && '$' !in s && '\n' !in s && TrimSpace(s) == s
  {
    var n := if i < 0 then -i else i;
    NatToStringDigits(n);
    var s := IntToString(i);
    assert s == if i < 0 then "-" + NatToString(n) else NatToString(n);
    assert forall j :: 0 <= j < |s| ==> s[j] == '-' || IsDigit(s[j]);
    NumeralShape(s);
  }

  lemma NumeralShape(s: string)
    requires s != [] && forall j :: 0 <= j < |s| ==> s[j] == '-' || IsDigit(s[j])
    ensures !IsRegexSpace(s[0]) && ';' !in s && '$' !in s && '\n' !in s && TrimSpace(s) == s
  {
    assert !IsSpace(s[0]) && !IsSpace(s[|s| - 1]);
    TrimSpaceOfTrimmed(s);
  }

  lemma {:induction false} DropCRsAppend(a: seq<string>, b: seq<string>)
    ensures DropCRs(a + b) == DropCRs(a) + DropCRs(b)
    decreases |a|
  {
    if a == [] {
      assert a + b == b;
    } else {
      DropFirstOfAppend(a, b);
      DropCRsAppend(a[1..], b);
      AppendAssoc([DropCR(a[0])], DropCRs(a[1..]), DropCRs(b));
    }
  }

  /**
   * Lines joined by newlines, with a final newline, read back with
   * `ScanLines`: a run of lines without newlines or final carriage returns
   * comes back unchanged, and lines without `$` give only pieces without `$`.
   */
  lemma ScanJoined(a: seq<string>, m: seq<string>, t: seq<string>) returns (pre: seq<string>, post: seq<string>)
    requires |a| >= 1 && |m| >= 1 && |t| >= 1
    requires forall i :: 0 <= i < |m| ==> '\n' !in m[i] && DropCR(m[i]) == m[i]
    requires forall i :: 0 <= i < |t| ==> '$' !in t[i]
    ensures ScanLines(Join(a + m + t, "\n") + "\n") == pre + m + post
    ensures forall j :: 0 <= j < |post| ==> '$' !in post[j]
  {
    var ts := SplitJoined(a, m, t);
    pre := DropCRs(Split(Join(a, "\n"), '\n'));
    post := DropCRs(ts);
    assert DropCRs(m) == m;
    DropCRsAppend(Split(Join(a, "\n"), '\n'), m + ts);
    DropCRsAppend(m, ts);
    assert '$' !in Join(t, "\n") by {
      JoinNoChar(t, '$');
    }
    SplitNoChar(Join(t, "\n"), '\n', '$');
    DropCRsNoChar(ts, '$');
  }

  /**
   * The text of lines `a + m + t` with a final newline, cut at its newlines
   * once the final one is dropped: the pieces of `a`, the lines of `m` as they
   * are, then the pieces of `t`.
   */
  lemma SplitJoined(a: seq<string>, m: seq<string>, t: seq<string>) returns (ts: seq<string>)
    requires |a| >= 1 && |m| >= 1 && |t| >= 1
    requires forall i :: 0 <= i < |m| ==> '\n' !in m[i]
    ensures ts == Split(Join(t, "\n"), '\n')
    ensures Split(TrimSuffix(Join(a + m + t, "\n") + "\n", "\n"), '\n') == Split(Join(a, "\n"), '\n') + (m + ts)
  {
    var ja, jm, jt := Join(a, "\n"), Join(m, "\n"), Join(t, "\n");
    var body := Join(a + m + t, "\n");
    assert body == ja + ['\n'] + (jm + ['\n'] + jt) by {
      JoinAppend(a + m, t, "\n");
      JoinAppend(a, m, "\n");
    }
    var text := body + "\n";
    assert TrimSuffix(text, "\n") == body by {
      assert text[|text| - 1..] == "\n" && text[..|text| - 1] == body;
    }
    ts := Split(jt, '\n');
    assert Split(body, '\n') == Split(ja, '\n') + (m + ts) by {
      SplitConcat(ja, jm + ['\n'] + jt, '\n');
      SplitConcat(jm, jt, '\n');
      SplitJoin(m, '\n');
    }
  }

  lemma DropCRsNoChar(ts: seq<string>, c: char)
    requires forall j :: 0 <= j < |ts| ==> c !in ts[j]
    ensures forall j :: 0 <= j < |DropCRs(ts)| ==> c !in DropCRs(ts)[j]
  {
    forall j | 0 <= j < |ts| ensures c !in DropCRs(ts)[j] {
      var p := DropCRs(ts)[j];
      assert ts[j] == p + ts[j][|p|..];
    }
  }

  /** The upstream lines hold no newline and do not end in a carriage return. */
  lemma UpstreamShape(data: ConfigData)
    requires '\n' !in data.containerName && '\n' !in data.protocol
    ensures forall i :: 0 <= i < 4 ==> '\n' !in UpstreamLines(data)[i] && DropCR(UpstreamLines(data)[i]) == UpstreamLines(data)[i]
  {
    IntToStringShape(data.containerPort);
    var m := UpstreamLines(data);
    DirectiveShape(I8 + "set $upstream_app ", data.containerName);
    DirectiveShape(I8 + "set $upstream_port ", IntToString(data.containerPort));
    DirectiveShape(I8 + "set $upstream_proto ", data.protocol);
    ProxyPassShape();
  }

  lemma ProxyPassShape()
    ensures '\n' !in I8 + ProxyPass && DropCR(I8 + ProxyPass) == I8 + ProxyPass
  {
    var l := I8 + ProxyPass;
    assert '\n' !in l by {
      assert '\n' !in I8 && '\n' !in "proxy_pass ";
      assert '\n' !in UpstreamProtoRef && '\n' !in UpstreamAppRef && '\n' !in UpstreamPortRef;
    }
    assert l[|l| - 1] == ';' by {
      LastOfAppend(I8, ProxyPass);
      LastOfAppend("proxy_pass " + UpstreamProtoRef + UpstreamAppRef, UpstreamPortRef);
    }
  }

  lemma DirectiveShape(p: string, x: string)
    requires '\n' !in p && '\n' !in x
    ensures '\n' !in p + x + ";" && DropCR(p + x + ";") == p + x + ";"
  {
    var l := p + x + ";";
    assert l[|l| - 1] == ';';
  }

  /** The tail of the template holds no `$` when the extra configuration has none. */
  lemma TailShape(data: ConfigData)
    requires '$' !in data.extraConfig
    ensures forall i :: 0 <= i < 6 ==> '$' !in TailLines(data)[i]
  {
  }

  /**
   * Read line by line, the rendered file shows the four upstream lines
   * unchanged, and after them only lines without `$` when the extra
   * configuration has none.
   */
  lemma ScannedTemplate(data: ConfigData) returns (pre: seq<string>, post: seq<string>)
    requires '\n' !in data.containerName && '\n' !in data.protocol
    requires '$' !in data.extraConfig
    ensures ScanLines(RenderTemplate(data)) == pre + UpstreamLines(data) + post
    ensures forall j :: 0 <= j < |post| ==> '$' !in post[j]
  {
    var tl := TemplateLines(data);
    var a := tl[..33];
    assert tl == a + UpstreamLines(data) + TailLines(data) by {
      assert tl[33..37] == UpstreamLines(data) && tl[37..] == TailLines(data);
    }
    UpstreamShape(data);
    TailShape(data);
    pre, post := ScanJoined(a, UpstreamLines(data), TailLines(data));
  }

  /**
   * The data whose upstream the registry's expressions read back: a container
   * name that is non-empty, starts with no white space and holds no `;` or
   * newline, a protocol without `$` or newline, and extra configuration
   * without `$`.
   */
  predicate ReadsBack(data: ConfigData) {
    && data.containerName != [] && !IsRegexSpace(data.containerName[0])
    && ';' !in data.containerName && '\n' !in data.containerName
    && '$' !in data.protocol && '\n' !in data.protocol
    && '$' !in data.extraConfig
  }

  /** A directive line of the template, cut where the expression's parts begin. */
  lemma DirectiveParts(pad: string, head: string, key: string, v: string)
    requires head == "set " + key + " "
    ensures pad + head + v + ";" == pad + "set" + " " + key + " " + v + ";" + ""
  {
  }

  lemma AppLine(x: string)
    requires x != [] && !IsRegexSpace(x[0]) && ';' !in x
    ensures Capture(I8 + "set $upstream_app " + x + ";", AppKey) == Some(x)
  {
    DirectiveParts(I8, "set $upstream_app ", AppKey, x);
    CaptureOfDirective(I8, " ", AppKey, " ", x, "");
  }

  lemma PortLine(n: string)
    requires n != [] && !IsRegexSpace(n[0]) && ';' !in n && '$' !in n
    ensures Capture(I8 + "set $upstream_port " + n + ";", PortKey) == Some(n)
  {
    DirectiveParts(I8, "set $upstream_port ", PortKey, n);
    CaptureOfDirective(I8, " ", PortKey, " ", n, "");
  }

  lemma PortLineNoApp(n: string)
    requires '$' !in n
    ensures Capture(I8 + "set $upstream_port " + n + ";", AppKey) == None
  {
    assert I8 + "set $upstream_port " + n + ";" == (I8 + "set ") + "$upstream_port" + (" " + n + ";");
    OneDollarNoCapture(I8 + "set ", "$upstream_port", " " + n + ";", AppKey, 10);
  }

  lemma ProtoLine(x: string)
    requires '$' !in x
    ensures Capture(I8 + "set $upstream_proto " + x + ";", AppKey) == None
    ensures Capture(I8 + "set $upstream_proto " + x + ";", PortKey) == None
  {
    assert I8 + "set $upstream_proto " + x + ";" == (I8 + "set ") + "$upstream_proto" + (" " + x + ";");
    OneDollarNoCapture(I8 + "set ", "$upstream_proto", " " + x + ";", AppKey, 10);
    OneDollarNoCapture(I8 + "set ", "$upstream_proto", " " + x + ";", PortKey, 11);
  }

  lemma ProxyPassNoCapture()
    ensures Capture(I8 + ProxyPass, AppKey) == None
    ensures Capture(I8 + ProxyPass, PortKey) == None
  {
    ProxyPassParts(I8);
    ThreeDollarsNoCapture(I8 + "proxy_pass ", UpstreamProtoRef, UpstreamAppRef, UpstreamPortRef, AppKey, 10);
    ThreeDollarsNoCapture(I8 + "proxy_pass ", UpstreamProtoRef, UpstreamAppRef, UpstreamPortRef, PortKey, 11);
  }

  /**
   * In the upstream lines, `set $upstream_app` captures the container name and
   * `set $upstream_port` the port's digits, and no later line matches either.
   */
  lemma UpstreamCaptures(data: ConfigData)
    requires ReadsBack(data)
    ensures var m := UpstreamLines(data);
      && Capture(m[0], AppKey) == Some(data.containerName)
      && Capture(m[1], PortKey) == Some(IntToString(data.containerPort))
      && (forall i :: 1 <= i < 4 ==> Capture(m[i], AppKey) == None)
      && (forall i :: 2 <= i < 4 ==> Capture(m[i], PortKey) == None)
  {
    IntToStringShape(data.containerPort);
    AppLine(data.containerName);
    PortLine(IntToString(data.containerPort));
    PortLineNoApp(IntToString(data.containerPort));
    ProtoLine(data.protocol);
    ProxyPassNoCapture();
  }

  /** Lines without `$` leave both fields as the lines before them set them. */
  lemma DollarFreeTail(lines: seq<string>, post: seq<string>, init: string)
    requires forall j :: 0 <= j < |post| ==> '$' !in post[j]
    ensures Field(lines + post, AppKey, init) == Field(lines, AppKey, init)
    ensures Field(lines + post, PortKey, init) == Field(lines, PortKey, init)
  {
    forall j | 0 <= j < |post| ensures Capture(post[j], AppKey) == None && Capture(post[j], PortKey) == None {
      NoDollarNoCapture(post[j], AppKey);
      NoDollarNoCapture(post[j], PortKey);
    }
    FieldUnmatchedTail(lines, post, AppKey, init);
    FieldUnmatchedTail(lines, post, PortKey, init);
  }

  /**
   * Four upstream lines between any lines and lines without `$`: the fields
   * read are the captures of the app and port lines, trimmed.
   */
  lemma {:induction false} ReadUpstream(pre: seq<string>, m: seq<string>, post: seq<string>,
                                        x: string, n: string, i1: string, i2: string)
    requires |m| == 4
    requires Capture(m[0], AppKey) == Some(x) && Capture(m[1], PortKey) == Some(n)
    requires forall i :: 1 <= i < 4 ==> Capture(m[i], AppKey) == None
    requires forall i :: 2 <= i < 4 ==> Capture(m[i], PortKey) == None
    requires forall j :: 0 <= j < |post| ==> '$' !in post[j]
    ensures Field(pre + m + post, AppKey, i1) == TrimSpace(x)
    ensures Field(pre + m + post, PortKey, i2) == TrimSpace(n)
  {
    var lines := pre + m;
    assert forall i :: 0 <= i < 4 ==> lines[|pre| + i] == m[i];
    DollarFreeTail(lines, post, i1);
    DollarFreeTail(lines, post, i2);
    FieldLastMatch(lines, AppKey, i1, |pre|, x);
    FieldLastMatch(lines, PortKey, i2, |pre| + 1, n);
  }

  /**
   * Reading the rendered file as `ListSites` does gives back the container
   * name, trimmed, and the port in decimal.
   */
  lemma RenderedDetails(data: ConfigData, config: SiteConfig)
    requires ReadsBack(data)
    ensures Details(config, File(RenderTemplate(data)))
         == config.(containerName := TrimSpace(data.containerName), containerPort := IntToString(data.containerPort))
  {
    var pre, post := ScannedTemplate(data);
    UpstreamCaptures(data);
    IntToStringShape(data.containerPort);
    ReadUpstream(pre, UpstreamLines(data), post, data.containerName, IntToString(data.containerPort),
                 config.containerName, config.containerPort);
  }

  /**
   * After a successful generation, listing the directory shows the new site:
   * enabled, under its subdomain and file name, proxying to the container
   * and port it was generated for.
   */
  lemma GeneratedSiteListed(d: DirState, basePath: string, data: ConfigData)
    requires d.Present? ==> Ordered(d.entries)
    requires GenerateSpec(d, basePath, data).0.Ok?
    requires ReadsBack(data)
    ensures var d1 := GenerateSpec(d, basePath, data).1;
      && ListSpec(d1).Ok?
      && SiteConfig(data.subdomain, ConfigFilename(data), Enabled,
                    TrimSpace(data.containerName), IntToString(data.containerPort)) in ListSpec(d1).value
  {
    var f := ConfigFilename(data);
    var file := File(RenderTemplate(data));
    GenerateEffect(d, basePath, data, f);
    var site := SiteConfig(data.subdomain, f, Enabled, TrimSpace(data.containerName), IntToString(data.containerPort));
    assert Record(DirEntry(f, file)) == Some(site) by {
      RecordOfSuffix(data.subdomain, Enabled, file);
      RenderedDetails(data, SiteConfig(data.subdomain, f, Enabled, "", ""));
    }
    LookupListed(GenerateSpec(d, basePath, data).1.entries, f, file, site);
  }
}
