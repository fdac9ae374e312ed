/**
 * The proxy configuration the generator writes (templates/templates.go,
 * `StandardProxyTemplate`): one `listen 443 ssl` server block for a
 * subdomain, whose `location /` proxies to a container. Rendering substitutes
 * the five fields of the generator's data into the text.
 */
module Templates {
  import opened Text
  import opened BlockLocator
  import opened DefaultSite
  import opened LocationRoot

  /** `ConfigData` of internal/nginx/generator.go: what the template is filled with. */
  datatype ConfigData = ConfigData(
    subdomain: string,
    containerName: string,
    containerPort: int,
    protocol: string,
    extraConfig: string)

  const I4: string := "    "
  const I8: string := "        "

  /** The header comment and the server block up to `location /`. */
  function ServerHead(d: ConfigData): (r: seq<string>)
    ensures |r| == 19
  {
    [ "#" + "# Version 2023/05/31",
      "#" + " make sure that your dns has a cname set for " + d.subdomain,
      "",
      "server {",
      I4 + "listen 443 ssl;",
      I4 + "listen [::]:443 ssl;",
      "",
      I4 + "server_name " + d.subdomain + ".*;",
      "",
      I4 + "include /config/nginx/ssl.conf;",
      "",
      I4 + "client_max_body_size 0;",
      "",
      I4 + "#" + " enable for ldap auth, fill in ldap.conf in the ldap folder",
      I4 + "#" + "include /config/nginx/ldap.conf;",
      "",
      I4 + "#" + " enable for Authelia",
      I4 + "#" + "include /config/nginx/authelia-server.conf;",
      ""
    ]
  }

  const LocationLine: string := I4 + "location / {"

  /** The commented-out alternatives at the top of `location /`. */
  const LocationComments: seq<string> := [
    I8 + "#" + " enable the next two lines for http auth",
    I8 + "#" + "auth_basic \"Restricted\";",
    I8 + "#" + "auth_basic_user_file /config/nginx/.htpasswd;",
    "",
    I8 + "#" + " enable the next two lines for ldap auth",
    I8 + "#" + "auth_request /auth;",
    I8 + "#" + "error_page 401 =200 /ldaplogin;",
    "",
    I8 + "#" + " enable for Authelia",
    I8 + "#" + "include /config/nginx/authelia-location.conf;",
    ""
  ]

  /** The six proxy directives of `location /`. */
  function ProxyLines(d: ConfigData): (r: seq<string>)
    ensures |r| == 6
  {
    [ I8 + "include /config/nginx/proxy.conf;",
      I8 + "include /config/nginx/resolver.conf;",
      I8 + "set $upstream_app " + d.containerName + ";",
      I8 + "set $upstream_port " + IntToString(d.containerPort) + ";",
      I8 + "set $upstream_proto " + d.protocol + ";",
      I8 + ProxyPass
    ]
  }

  /** The end of `location /`, the extra configuration, the end of `server`. */
  function TailLines(d: ConfigData): (r: seq<string>)
    ensures |r| == 6
  {
    [ "",
      I4 + "}",
      "",
      I4 + "#" + " additional config block",
      I4 + d.extraConfig,
      "}"
    ]
  }

  /** The template's lines, the extra configuration counted as one line. */
  function TemplateLines(d: ConfigData): (r: seq<string>)
    ensures |r| == 43
  {
    ServerHead(d) + [LocationLine] + LocationComments + ProxyLines(d) + TailLines(d)
  }

  /** The rendered text: every line followed by a newline. */
  function RenderTemplate(d: ConfigData): string {
    Join(TemplateLines(d), "\n") + "\n"
  }

  /** The editor's view of the site: the same container, port and protocol. */
  function AsHomepage(d: ConfigData): HomepageConfig {
    HomepageConfig(d.subdomain, d.containerName, d.containerPort, d.protocol, false)
  }

  // ---------------------------------------------------------------------------
  // The `location /` block and the editor

  /**
   * The six directives of the template's `location /` are, character for
   * character, the lines the default-site editor injects for the same
   * container, port and protocol under that `location /` line, so the editor
   * strips every one of them.
   */
  lemma TemplateDirectivesAreInjected(d: ConfigData)
    ensures Matches(LocationRootStart, LocationLine)
    ensures ProxyLines(d) == Inject(LocationLine, AsHomepage(d), false)
    ensures forall i :: 0 <= i < 6 ==> ShouldRemove(ProxyLines(d)[i])
  {
    LocationLineMatches();
    LeadingBlanksAt(LocationLine, 4);
    assert LeadingBlanks(LocationLine) + "    " == I8;
    ProxyInject(LocationLine, I8, AsHomepage(d));
    var ps := ProxyLines(d);
    assert ps[0] == I8 + ProxyInclude;
    assert ps[1] == I8 + ResolverInclude;
    assert ps[2] == I8 + ("set $upstream_app " + d.containerName + ";");
    assert ps[3] == I8 + ("set $upstream_port " + IntToString(d.containerPort) + ";");
    assert ps[4] == I8 + ("set $upstream_proto " + d.protocol + ";");
    InjectRemovable(LocationLine, AsHomepage(d), false);
  }

  /** `    location / {` opens a `location /` block. */
  lemma LocationLineMatches()
    ensures Matches(LocationRootStart, LocationLine)
  {
    var p := LocationRootPattern;
    var tail := p[9..];
    assert tail == RootTail();
    var word := p[1..9];
    assert forall k :: 0 <= k < 8 ==> word[k] == Lit("location"[k]);
    LiteralsMatch("location", word, tail, " / {");
    assert p == [Spaces] + (word + tail);
    SpacesMatch(I4, word + tail, "location" + " / {");
    assert LocationLine == I4 + ("location" + " / {");
  }

  /** The part of `location /`'s pattern after the keyword, matched by ` / {`. */
  function RootTail(): (t: seq<Token>)
    ensures PrefixMatch(t, " / {")
  {
    assert PrefixMatch([Lit('{')], "{");
    assert PrefixMatch([Spaces, Lit('{')], "{");
    assert PrefixMatch([Spaces, Lit('{')], " {");
    assert PrefixMatch([Lit('/'), Spaces, Lit('{')], "/ {");
    assert PrefixMatch([Spaces] + [Lit('/'), Spaces, Lit('{')], "/ {");
    [Spaces1, Lit('/'), Spaces, Lit('{')]
  }

  /** Literal tokens match exactly their characters. */
  lemma {:induction false} LiteralsMatch(w: string, lits: seq<Token>, rest: seq<Token>, s: string)
    requires |lits| == |w| && forall k :: 0 <= k < |w| ==> lits[k] == Lit(w[k])
    requires PrefixMatch(rest, s)
    ensures PrefixMatch(lits + rest, w + s)
  {
    if w == [] {
      assert lits + rest == rest && w + s == s;
    } else {
      LiteralsMatch(w[1..], lits[1..], rest, s);
      assert (lits + rest)[0] == Lit(w[0]) && (w + s)[0] == w[0];
      assert (lits + rest)[1..] == lits[1..] + rest;
      assert (w + s)[1..] == w[1..] + s;
    }
  }

  /** A `\s*` token takes a run of blanks up to a non-blank character. */
  lemma {:induction false} SpacesMatch(pad: string, rest: seq<Token>, s: string)
    requires forall k :: 0 <= k < |pad| ==> pad[k] == ' '
    requires s != [] && !IsRegexSpace(s[0])
    requires PrefixMatch(rest, s)
    ensures PrefixMatch([Spaces] + rest, pad + s)
  {
    if pad == [] {
      assert ([Spaces] + rest)[1..] == rest && pad + s == s;
    } else {
      SpacesMatch(pad[1..], rest, s);
      assert (pad + s)[0] == ' ' && IsRegexSpace(' ');
      assert (pad + s)[1..] == pad[1..] + s;
    }
  }

  /** A line of blanks, `#`, and anything: a comment. */
  lemma CommentNotSignificant(pad: string, rest: string)
    requires forall j :: 0 <= j < |pad| ==> IsBlank(pad[j])
    ensures !Significant(pad + "#" + rest)
  {
    var s := pad + "#" + rest;
    assert s[|pad|] == '#';
    TrimLeftSpaceAt(s, |pad|);
    assert TrimLeftSpace(s) == "#" + rest;
    var r := TrimSpace(s);
    assert r == TrimRightSpace("#" + rest);
    assert r != [] ==> r[0] == '#';
  }

  /**
   * The commented alternatives of `location /` (basic auth, ldap, Authelia) and
   * the blank lines between them are never removed by the editor.
   */
  lemma CommentedAlternativesKept()
    ensures forall i :: 0 <= i < |LocationComments| ==> !ShouldRemove(LocationComments[i])
  {
    var c := LocationComments;
    forall i | 0 <= i < |c| ensures !Significant(c[i]) {
      if c[i] == "" {
        assert TrimSpace("") == "";
      } else {
        var rest := c[i][9..];
        assert c[i] == I8 + "#" + rest;
        CommentNotSignificant(I8, rest);
      }
    }
  }
}
