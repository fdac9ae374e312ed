/**
 * The tool's saved settings: the SWAG base directory, the SWAG container and
 * the Docker network, with their defaults, normalisation, key lookup and
 * update, `~` expansion, and what loading and importing decide for missing,
 * blank, unreadable, malformed and mistyped files. The file system and the JSON codec are
 * parameters: what `os.ReadFile` gives back, and what decoding finds.
 */
module Config {
  import opened Wrappers
  import opened Text
  import opened Sorting

  /** The saved settings. */
  datatype Config = Config(swagDir: string, swagContainer: string, network: string)

  const DefaultSwagDir: string := "~/apps-docker/swag"
  const DefaultName: string := "swag"

  /** `Default`. */
  function Default(): Config {
    Config(DefaultSwagDir, DefaultName, DefaultName)
  }

  /** Non-empty, without white space at either end. */
  predicate Trimmed(s: string) {
    s != [] && !IsSpace(s[0]) && !IsSpace(s[|s| - 1])
  }

  /** What `normalize` guarantees of every field. */
  predicate Normal(c: Config) {
    Trimmed(c.swagDir) && Trimmed(c.swagContainer) && Trimmed(c.network)
  }

  /** One field of `normalize`: trimmed, or the default when nothing is left. */
  function OrDefault(v: string, d: string): string {
    var t := TrimSpace(v);
    if t == "" then d else t
  }

  /** `normalize`. */
  function Normalize(c: Config): Config {
    var d := Default();
    Config(OrDefault(c.swagDir, d.swagDir), OrDefault(c.swagContainer, d.swagContainer), OrDefault(c.network, d.network))
  }

  lemma DefaultNormal()
    ensures Normal(Default())
  {
  }

  /** A normalised configuration has every field non-empty and trimmed. */
  lemma NormalizeNormal(c: Config)
    ensures Normal(Normalize(c))
    ensures TrimSpace(c.swagDir) != "" ==> Normalize(c).swagDir == TrimSpace(c.swagDir)
    ensures TrimSpace(c.swagContainer) != "" ==> Normalize(c).swagContainer == TrimSpace(c.swagContainer)
    ensures TrimSpace(c.network) != "" ==> Normalize(c).network == TrimSpace(c.network)
    ensures TrimSpace(c.swagDir) == "" ==> Normalize(c).swagDir == Default().swagDir
    ensures TrimSpace(c.swagContainer) == "" ==> Normalize(c).swagContainer == Default().swagContainer
    ensures TrimSpace(c.network) == "" ==> Normalize(c).network == Default().network
  {
    DefaultNormal();
  }

  /** `normalize` leaves a configuration that is already normal as it is. */
  lemma NormalizeOfNormal(c: Config)
    requires Normal(c)
    ensures Normalize(c) == c
  {
    OrDefaultOfTrimmed(c.swagDir, Default().swagDir);
    OrDefaultOfTrimmed(c.swagContainer, Default().swagContainer);
    OrDefaultOfTrimmed(c.network, Default().network);
  }

  lemma OrDefaultOfTrimmed(v: string, d: string)
    requires Trimmed(v)
    ensures OrDefault(v, d) == v
  {
    TrimSpaceOfTrimmed(v);
  }

  lemma NormalizeIdempotent(c: Config)
    ensures Normalize(Normalize(c)) == Normalize(c)
  {
    NormalizeNormal(c);
    NormalizeOfNormal(Normalize(c));
  }

  // ---------------------------------------------------------------------------
  // Keys

  const KeySwagDir: string := "swag-dir"
  const KeySwagContainer: string := "swag-container"
  const KeyNetwork: string := "network"

  /** The keys as `Keys` lists them before sorting. */
  const DeclaredKeys: seq<string> := [KeySwagDir, KeySwagContainer, KeyNetwork]

  lemma KeysOrdered()
    ensures Less(KeyNetwork, KeySwagContainer) && Less(KeySwagContainer, KeySwagDir)
  {
    assert KeyNetwork[0] == 'n' && KeySwagContainer[0] == 's';
    var a := KeySwagContainer;
    var b := KeySwagDir;
    assert a[5] == 'c' && b[5] == 'd';
    assert a[..5] == b[..5];
    assert Less(a[5..], b[5..]);
    assert Less(a[4..], b[4..]) by { assert a[4..][1..] == a[5..] && b[4..][1..] == b[5..]; }
    assert Less(a[3..], b[3..]) by { assert a[3..][1..] == a[4..] && b[3..][1..] == b[4..]; }
    assert Less(a[2..], b[2..]) by { assert a[2..][1..] == a[3..] && b[2..][1..] == b[3..]; }
    assert Less(a[1..], b[1..]) by { assert a[1..][1..] == a[2..] && b[1..][1..] == b[2..]; }
  }

  /** `Keys`: the declared keys in `sort.Strings` order. */
  function Keys(): seq<string> {
    [KeyNetwork, KeySwagContainer, KeySwagDir]
  }

  /** `Keys` lists each declared key once, sorted as `sort.Strings` sorts. */
  lemma KeysSorted()
    ensures StrictlySorted(Keys()) && multiset(Keys()) == multiset(DeclaredKeys)
  {
    KeysOrdered();
    LessTransitive(KeyNetwork, KeySwagContainer, KeySwagDir);
  }

  /** `normalizeKey`. */
  function NormalizeKey(key: string): string {
    ToLower(TrimSpace(key))
  }

  /** The `switch` of `Get`, on a key already normalised. */
  function Lookup(c: Config, k: string): (string, bool) {
    if k == KeySwagDir then (c.swagDir, true)
    else if k == KeySwagContainer then (c.swagContainer, true)
    else if k == KeyNetwork then (c.network, true)
    else ("", false)
  }

  /** `Get`. */
  function Get(c: Config, key: string): (string, bool) {
    Lookup(c, NormalizeKey(key))
  }

  /** A key is known exactly when its normalised form is listed; an unknown key gives `("", false)`. */
  lemma GetKnown(c: Config, key: string)
    ensures Get(c, key).1 <==> NormalizeKey(key) in Keys()
    ensures !Get(c, key).1 ==> Get(c, key).0 == ""
  {
  }

  /** A string without white space at its ends and without capitals is its own normalised key. */
  lemma NormalizeKeyOfPlain(s: string)
    requires s != [] && !IsSpace(s[0]) && !IsSpace(s[|s| - 1])
    requires forall i :: 0 <= i < |s| ==> !('A' <= s[i] <= 'Z')
    ensures NormalizeKey(s) == s
  {
    TrimSpaceOfTrimmed(s);
  }

  /** Every listed key is already normalised, so `Get` finds each one's field. */
  lemma GetSwagDir(c: Config)
    ensures Get(c, KeySwagDir) == (c.swagDir, true)
  {
    NormalizeKeyOfPlain(KeySwagDir);
  }

  lemma GetSwagContainer(c: Config)
    ensures Get(c, KeySwagContainer) == (c.swagContainer, true)
  {
    NormalizeKeyOfPlain(KeySwagContainer);
  }

  lemma GetNetwork(c: Config)
    ensures Get(c, KeyNetwork) == (c.network, true)
  {
    NormalizeKeyOfPlain(KeyNetwork);
  }

  lemma GetKeys(c: Config)
    ensures Get(c, KeySwagDir) == (c.swagDir, true)
    ensures Get(c, KeySwagContainer) == (c.swagContainer, true)
    ensures Get(c, KeyNetwork) == (c.network, true)
  {
    GetSwagDir(c);
    GetSwagContainer(c);
    GetNetwork(c);
  }

  /** Two configurations that agree on every key are the same. */
  lemma GetDetermines(a: Config, b: Config)
    requires forall k :: k in Keys() ==> Get(a, k) == Get(b, k)
    ensures a == b
  {
    GetKeys(a);
    GetKeys(b);
    assert Get(a, KeySwagDir) == Get(b, KeySwagDir);
    assert Get(a, KeySwagContainer) == Get(b, KeySwagContainer);
    assert Get(a, KeyNetwork) == Get(b, KeyNetwork);
  }

  datatype ConfigError = NilConfig | UnknownKey(key: string)

  /** The `*Config` a caller hands to `Set`. */
  class ConfigRef {
    var value: Config

    constructor(c: Config)
      ensures value == c
    {
      value := c;
    }
  }

  /**
   * `Set`: stores the trimmed value in the one field the key names, so that
   * `Get` of that key reads it back and every other key reads what it did.
   * A nil configuration or an unknown key is an error and changes nothing.
   */
  method Set(cfg: ConfigRef?, key: string, value: string) returns (err: Option<ConfigError>)
    modifies cfg
    ensures cfg == null ==> err == Some(NilConfig)
    ensures cfg != null && NormalizeKey(key) !in Keys() ==> err == Some(UnknownKey(key)) && cfg.value == old(cfg.value)
    ensures cfg != null && NormalizeKey(key) in Keys() ==>
      err.None? && Get(cfg.value, key) == (TrimSpace(value), true)
    ensures cfg != null ==>
      forall k :: NormalizeKey(k) != NormalizeKey(key) ==> Get(cfg.value, k) == Get(old(cfg.value), k)
  {
    if cfg == null {
      return Some(NilConfig);
    }
    var k := NormalizeKey(key);
    var c := cfg.value;
    if k == KeySwagDir {
      cfg.value := c.(swagDir := TrimSpace(value));
    } else if k == KeySwagContainer {
      cfg.value := c.(swagContainer := TrimSpace(value));
    } else if k == KeyNetwork {
      cfg.value := c.(network := TrimSpace(value));
    } else {
      assert k !in Keys();
      return Some(UnknownKey(key));
    }
    assert k in Keys();
    LookupOthers(c, cfg.value, k);
    return None;
  }

  /** Changing the field a normalised key names leaves every other key's answer as it was. */
  lemma LookupOthers(c: Config, d: Config, k: string)
    requires k == KeySwagDir ==> d == c.(swagDir := d.swagDir)
    requires k == KeySwagContainer ==> d == c.(swagContainer := d.swagContainer)
    requires k == KeyNetwork ==> d == c.(network := d.network)
    requires k in Keys()
    ensures forall n :: n != k ==> Lookup(d, n) == Lookup(c, n)
  {
  }

  // ---------------------------------------------------------------------------
  // Paths

  /** `filepath.Join` of two elements, without the clean-up of `.`, `..` and doubled separators. */
  function JoinPath(a: string, b: string): string {
    if a == "" then b else if b == "" then a else a + "/" + b
  }

  /** `expandPath`, with what `os.UserHomeDir` gives as `home` (`None` when it fails). */
  function ExpandPath(path: string, home: Option<string>): string {
    if HasPrefix(path, "~/") || HasPrefix(path, "~\\") then
      if home.Some? then JoinPath(home.value, path[2..]) else path
    else if path == "~" && home.Some? then home.value
    else path
  }

  /** `~/x` and `~\x` become the home directory joined with `x`; `~` becomes the home directory. */
  lemma ExpandTilde(rest: string, home: string)
    ensures ExpandPath("~/" + rest, Some(home)) == JoinPath(home, rest)
    ensures ExpandPath("~\\" + rest, Some(home)) == JoinPath(home, rest)
    ensures ExpandPath("~", Some(home)) == home
  {
    assert ("~/" + rest)[..2] == "~/" && ("~/" + rest)[2..] == rest;
    assert ("~\\" + rest)[..2] == "~\\" && ("~\\" + rest)[2..] == rest;
  }

  /** Any other path, and any path when the home directory is unknown, is returned unchanged. */
  lemma ExpandOther(path: string, home: Option<string>)
    requires home.None? || (path != "~" && (path == [] || path[0] != '~'))
    ensures ExpandPath(path, home) == path
  {
    if home.Some? && |path| >= 2 {
      assert path[..2][0] == path[0];
    }
  }

  /** With a home directory that does not itself start with `~`, expanding twice is expanding once. */
  lemma ExpandIdempotent(path: string, home: string)
    requires home != [] && home[0] != '~'
    ensures ExpandPath(ExpandPath(path, Some(home)), Some(home)) == ExpandPath(path, Some(home))
  {
    var e := ExpandPath(path, Some(home));
    if e != path {
      assert e[0] == home[0];
      ExpandOther(e, Some(home));
    }
  }

  // ---------------------------------------------------------------------------
  // Loading, saving, importing

  /**
   * What decoding JSON into a `Config` finds: a syntax error; an object whose
   * fields all have the right type, with those present; or an object in which
   * some field has the wrong type, with the fields that did decode, which
   * `json.Unmarshal` stores before it reports the first type error.
   */
  datatype Json =
    | Malformed
    | Object(swagDir: Option<string>, swagContainer: Option<string>, network: Option<string>)
    | Mistyped(swagDir: Option<string>, swagContainer: Option<string>, network: Option<string>)

  /**
   * What reading the configuration file gives: it does not exist, it exists but
   * cannot be opened, it opened but reading failed, or its text together with
   * what decoding that text as JSON finds.
   */
  datatype ReadOutcome = NotExist | OpenFailed | ReadFailed | Bytes(text: string, json: Json)

  datatype LoadError = ReadError(path: string) | ParseError(path: string) | OpenError(path: string) | EmptyImport(path: string)

  /** The part of `filepath.Clean(strings.TrimSpace(path))` the messages show: an empty path reads as `.`. */
  function CleanPath(path: string): string {
    var t := TrimSpace(path);
    if t == "" then "." else t
  }

  /** `json.Unmarshal` into `c`: the fields that decoded replace those of `c`. */
  function Overlay(c: Config, j: Json): Config
    requires !j.Malformed?
  {
    Config(
      if j.swagDir.Some? then j.swagDir.value else c.swagDir,
      if j.swagContainer.Some? then j.swagContainer.value else c.swagContainer,
      if j.network.Some? then j.network.value else c.network)
  }

  /**
   * `LoadFrom`: a missing or blank file gives the defaults and no error; a
   * failure to open or read gives the defaults and an error; a syntax error
   * gives the defaults and an error; a type error gives the fields that did
   * decode over the defaults, not normalised, and an error; otherwise the
   * decoded fields over the defaults, normalised.
   */
  function LoadFrom(path: string, read: ReadOutcome): (Config, Option<LoadError>) {
    match read
    case NotExist => (Default(), None)
    case OpenFailed => (Default(), Some(ReadError(CleanPath(path))))
    case ReadFailed => (Default(), Some(ReadError(CleanPath(path))))
    case Bytes(text, j) =>
      if TrimSpace(text) == "" then (Default(), None)
      else if j.Malformed? then (Default(), Some(ParseError(CleanPath(path))))
      else if j.Mistyped? then (Overlay(Default(), j), Some(ParseError(CleanPath(path))))
      else (Normalize(Overlay(Default(), j)), None)
  }

  /**
   * `LoadFrom` as its documentation describes it: every read or parse failure,
   * a type error included, gives the defaults with the error.
   */
  function LoadFromIntended(path: string, read: ReadOutcome): (Config, Option<LoadError>) {
    var (c, e) := LoadFrom(path, read);
    if e.Some? then (Default(), e) else (c, e)
  }

  /**
   * `ImportFrom`: the file must open and must not be blank; any failure gives
   * the defaults and an error, a type error included.
   */
  function ImportFrom(path: string, read: ReadOutcome): (Config, Option<LoadError>) {
    match read
    case NotExist => (Default(), Some(OpenError(CleanPath(path))))
    case OpenFailed => (Default(), Some(OpenError(CleanPath(path))))
    case ReadFailed => (Default(), Some(ReadError(CleanPath(path))))
    case Bytes(text, j) =>
      if TrimSpace(text) == "" then (Default(), Some(EmptyImport(CleanPath(path))))
      else if !j.Object? then (Default(), Some(ParseError(CleanPath(path))))
      else (Normalize(Overlay(Default(), j)), None)
  }

  /**
   * What decoding the file `SaveTo` or `ExportTo` writes finds: all three
   * fields of the normalised configuration, which `json.Marshal` always emits.
   */
  function Saved(cfg: Config): Json {
    var n := Normalize(cfg);
    Object(Some(n.swagDir), Some(n.swagContainer), Some(n.network))
  }

  /**
   * A missing or blank file loads as the defaults without error; one that
   * cannot be opened or read, or is not JSON, as the defaults with an error; one
   * with a mistyped field as the fields that decoded, with an error.
   */
  lemma LoadFromFallbacks(path: string, read: ReadOutcome)
    ensures read.NotExist? ==> LoadFrom(path, read) == (Default(), None)
    ensures read.Bytes? && TrimSpace(read.text) == "" ==> LoadFrom(path, read) == (Default(), None)
    ensures read.OpenFailed? || read.ReadFailed? ==> LoadFrom(path, read) == (Default(), Some(ReadError(CleanPath(path))))
    ensures read.Bytes? && TrimSpace(read.text) != "" && read.json.Malformed? ==>
      LoadFrom(path, read) == (Default(), Some(ParseError(CleanPath(path))))
    ensures read.Bytes? && TrimSpace(read.text) != "" && read.json.Mistyped? ==>
      LoadFrom(path, read) == (Overlay(Default(), read.json), Some(ParseError(CleanPath(path))))
    ensures LoadFrom(path, read).1.Some? && !(read.Bytes? && read.json.Mistyped?) ==> LoadFrom(path, read).0 == Default()
  {
  }

  /** An empty or blank path is cleaned to `.`, the name every message shows. */
  lemma BlankPathIsDot(path: string)
    requires TrimSpace(path) == ""
    ensures CleanPath(path) == "."
    ensures LoadFrom(path, ReadFailed) == (Default(), Some(ReadError(".")))
    ensures ImportFrom(path, OpenFailed) == (Default(), Some(OpenError(".")))
  {
  }

  /**
   * Whatever the file holds, the imported configuration is normal, and so is
   * the loaded one unless a field had the wrong type.
   */
  lemma LoadedNormal(path: string, read: ReadOutcome)
    ensures !(read.Bytes? && read.json.Mistyped?) ==> Normal(LoadFrom(path, read).0)
    ensures LoadFrom(path, read).1.None? ==> Normal(LoadFrom(path, read).0)
    ensures Normal(ImportFrom(path, read).0)
  {
    DefaultNormal();
    if read.Bytes? && read.json.Object? {
      NormalizeNormal(Overlay(Default(), read.json));
    }
  }

  /**
   * A field of the wrong type leaves `LoadFrom` with a configuration that is not
   * the defaults and not normal: here the directory decoded as the empty string
   * while the container's value was not a string.
   */
  lemma LoadFromKeepsMistypedFields(path: string)
    ensures var read := Bytes("{\"swagDir\": \"\", \"swagContainer\": 1}", Mistyped(Some(""), None, None));
            && LoadFrom(path, read).1.Some?
            && LoadFrom(path, read).0 != Default()
            && !Normal(LoadFrom(path, read).0)
  {
    var text := "{\"swagDir\": \"\", \"swagContainer\": 1}";
    assert !IsSpace(text[0]);
    TrimSpaceFirst(text, 0);
  }

  /** The intended `LoadFrom` gives the defaults with every error and a normal configuration always. */
  lemma LoadFromIntendedFallbacks(path: string, read: ReadOutcome)
    ensures LoadFromIntended(path, read).1 == LoadFrom(path, read).1
    ensures LoadFromIntended(path, read).1.Some? ==> LoadFromIntended(path, read).0 == Default()
    ensures LoadFromIntended(path, read).1.None? ==> LoadFromIntended(path, read) == LoadFrom(path, read)
    ensures Normal(LoadFromIntended(path, read).0)
  {
    LoadedNormal(path, read);
  }

  /**
   * Importing differs from loading in failing on a missing, unopenable or blank
   * file, in naming an open failure as such, and in giving the defaults on a type
   * error; on every other input the two agree.
   */
  lemma ImportVersusLoad(path: string, read: ReadOutcome)
    ensures (read.NotExist? || (read.Bytes? && TrimSpace(read.text) == "")) ==>
      ImportFrom(path, read).0 == Default() && ImportFrom(path, read).1.Some? &&
      LoadFrom(path, read) == (Default(), None)
    ensures read.OpenFailed? ==>
      ImportFrom(path, read) == (Default(), Some(OpenError(CleanPath(path)))) &&
      LoadFrom(path, read) == (Default(), Some(ReadError(CleanPath(path))))
    ensures read.Bytes? && TrimSpace(read.text) != "" && read.json.Mistyped? ==>
      ImportFrom(path, read) == (Default(), LoadFrom(path, read).1)
    ensures ImportFrom(path, read).1.None? <==>
      (LoadFrom(path, read).1.None? && !read.NotExist? && !(read.Bytes? && TrimSpace(read.text) == ""))
    ensures !(read.NotExist? || read.OpenFailed? || (read.Bytes? && TrimSpace(read.text) == "")
              || (read.Bytes? && read.json.Mistyped?)) ==>
      ImportFrom(path, read) == LoadFrom(path, read)
  {
  }

  /**
   * Loading what was saved gives the normalised configuration back, whatever
   * non-blank text the encoder chose.
   */
  lemma SaveLoadRoundTrip(path: string, cfg: Config, text: string)
    requires TrimSpace(text) != ""
    ensures LoadFrom(path, Bytes(text, Saved(cfg))) == (Normalize(cfg), None)
  {
    assert Overlay(Default(), Saved(cfg)) == Normalize(cfg);
    NormalizeIdempotent(cfg);
  }

  /** Importing what was exported gives the normalised configuration back. */
  lemma ExportImportRoundTrip(path: string, cfg: Config, text: string)
    requires TrimSpace(text) != ""
    ensures ImportFrom(path, Bytes(text, Saved(cfg))) == (Normalize(cfg), None)
  {
    SaveLoadRoundTrip(path, cfg, text);
    ImportVersusLoad(path, Bytes(text, Saved(cfg)));
  }
}
