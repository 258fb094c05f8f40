/**
 Configuration: the upstream origin and its WebSocket twin, validation, and the layers
 a configuration is loaded from.

 `url.Parse`, `Duration.String` and `ParseDuration` are parameters; what is assumed of
 them is said where it is needed.
 */
module Config {
  import opened Options

  // ------------------------------------------------------------------ upstream URLs

  /** A parsed URL, its components in the form in which they are printed. */
  datatype Url = Url(
    scheme: string,
    user: Option<string>,
    host: string,
    path: string,
    rawPath: string,
    forceQuery: bool,
    rawQuery: string,
    fragment: string,
    rawFragment: string)

  type UrlParser = string -> Option<Url>

  datatype UpstreamError = Unparsable | BadScheme | NoHost

  datatype Upstream = Rejected(err: UpstreamError) | Origin(base: string, ws: string)

  predicate Bare(u: Url) {
    u.path == "" && u.rawPath == "" && u.rawQuery == "" && u.fragment == ""
  }

  function Authority(u: Url): string {
    (if u.user.Some? then u.user.value + "@" else "") + u.host
  }

  /** `URL.String` of a URL with a host and nothing after it. */
  function PrintBare(u: Url): string
    requires Bare(u)
  {
    u.scheme + "://" + Authority(u) + if u.forceQuery then "?" else ""
  }

  /** What is left of a URL when everything after the authority is cleared; an empty
      query's `?` and the raw fragment are overlooked. */
  function Cleared(u: Url, scheme: string): (c: Url)
    ensures Bare(c)
  {
    u.(scheme := scheme, path := "", rawPath := "", rawQuery := "", fragment := "")
  }

  predicate Secure(scheme: string) {
    scheme == "https" || scheme == "wss"
  }

  const SCHEMES: set<string> := {"https", "wss", "http", "ws"}

  function NormalizeUpstream(parse: UrlParser, input: string): Upstream {
    match parse(input)
    case None => Rejected(Unparsable)
    case Some(u) =>
      if u.scheme !in SCHEMES then Rejected(BadScheme)
      else if u.host == "" then Rejected(NoHost)
      else Origin(
        PrintBare(Cleared(u, if Secure(u.scheme) then "https" else "http")),
        PrintBare(Cleared(u, if Secure(u.scheme) then "wss" else "ws")))
  }

  /** The same as the program does it, editing the parsed URL field by field. */
  method NormalizeInPlace(parse: UrlParser, input: string) returns (r: Upstream)
    ensures r == NormalizeUpstream(parse, input)
  {
    var parsed := parse(input);
    if parsed.None? {
      return Rejected(Unparsable);
    }
    var u := parsed.value;
    if u.scheme == "https" || u.scheme == "wss" {
      u := u.(scheme := "wss");
    } else if u.scheme == "http" || u.scheme == "ws" {
      u := u.(scheme := "ws");
    } else {
      return Rejected(BadScheme);
    }
    if u.host == "" {
      return Rejected(NoHost);
    }
    u := u.(path := "");
    u := u.(rawPath := "");
    u := u.(rawQuery := "");
    u := u.(fragment := "");
    var ws := PrintBare(u);
    if u.scheme == "wss" {
      u := u.(scheme := "https");
    } else if u.scheme == "ws" {
      u := u.(scheme := "http");
    }
    r := Origin(PrintBare(u), ws);
  }

  /** Assumed of `url.Parse`: the printed origin of a URL it has accepted is accepted
      again and means the same. */
  ghost predicate Reparses(parse: UrlParser) {
    forall input, scheme :: ReparsesAt(parse, input, scheme)
  }

  predicate ReparsesAt(parse: UrlParser, input: string, scheme: string) {
    parse(input).Some? && parse(input).value.host != "" && scheme in SCHEMES ==>
      var c := Cleared(parse(input).value, scheme);
      parse(PrintBare(c)) == Some(c.(rawFragment := ""))
  }

  function OriginOf(scheme: string): string {
    scheme + "://h"
  }

  function HostUrl(scheme: string, forceQuery: bool): Url {
    Url(scheme, None, "h", "", "", forceQuery, "", "", "")
  }

  /** A parser that knows a single host, with or without a bare trailing `?`. */
  function OneHost(input: string): Option<Url> {
    var forced := input != "" && input[|input| - 1] == '?';
    var origin := if forced then input[..|input| - 1] else input;
    if origin == OriginOf("https") then Some(HostUrl("https", forced))
    else if origin == OriginOf("http") then Some(HostUrl("http", forced))
    else if origin == OriginOf("wss") then Some(HostUrl("wss", forced))
    else if origin == OriginOf("ws") then Some(HostUrl("ws", forced))
    else None
  }

  lemma OneHostParses(scheme: string)
    requires scheme in SCHEMES
    ensures OneHost(OriginOf(scheme)) == Some(HostUrl(scheme, false))
    ensures OneHost(OriginOf(scheme) + "?") == Some(HostUrl(scheme, true))
  {
    var s := OriginOf(scheme);
    assert |OriginOf("https")| == 9 && |OriginOf("http")| == 8 && |OriginOf("wss")| == 7 && |OriginOf("ws")| == 6;
    assert s[|s| - 1] == 'h' && (s + "?")[..|s|] == s;
  }

  lemma HostUrlPrints(scheme: string, forced: bool)
    ensures Bare(HostUrl(scheme, forced))
    ensures PrintBare(HostUrl(scheme, forced)) == if forced then OriginOf(scheme) + "?" else OriginOf(scheme)
  {
    assert scheme + "://" + ("" + "h") == OriginOf(scheme);
    assert OriginOf(scheme) + "" == OriginOf(scheme);
  }

  /** The assumption can be met, */
  lemma ReparsesCanHold()
    ensures Reparses(OneHost) && NormalizeUpstream(OneHost, OriginOf("https")).Origin?
  {
    OneHostParses("https");
    forall input, scheme
      ensures ReparsesAt(OneHost, input, scheme)
    {
      OneHostReparses(input, scheme);
    }
  }

  lemma OneHostReparses(input: string, scheme: string)
    ensures ReparsesAt(OneHost, input, scheme)
  {
    if OneHost(input).Some? && scheme in SCHEMES {
      var forced := OneHost(input).value.forceQuery;
      assert Cleared(OneHost(input).value, scheme) == HostUrl(scheme, forced);
      HostUrlPrints(scheme, forced);
      OneHostParses(scheme);
    }
  }

  lemma BareQueryKept()
    ensures var base, ws := OriginOf("https") + "?", OriginOf("wss") + "?";
            NormalizeUpstream(OneHost, base) == Origin(base, ws)
  {
    OneHostParses("https");
    HostUrlPrints("https", true);
    HostUrlPrints("wss", true);
    assert Cleared(HostUrl("https", true), "https") == HostUrl("https", true);
    assert Cleared(HostUrl("https", true), "wss") == HostUrl("wss", true);
  }

  /** and with it the bare trailing `?` survives normalisation, and ends up in front of
      the path of every request. */
  lemma BareQuerySurvives(path: string)
    ensures var base, ws := OriginOf("https") + "?", OriginOf("wss") + "?";
            && Reparses(OneHost) && NormalizeUpstream(OneHost, base) == Origin(base, ws)
            && DialUrl(ws, path, "") == OriginOf("wss") + "?" + path
  {
    ReparsesCanHold();
    BareQueryKept();
    assert OriginOf("wss") + "?" + path + "" == OriginOf("wss") + "?" + path;
  }

  /** Normalisation reaches its fixpoint at once: either of its outputs normalises to
      the same pair. */
  lemma NormalizeIsFixpoint(parse: UrlParser, input: string)
    requires Reparses(parse) && NormalizeUpstream(parse, input).Origin?
    ensures var n := NormalizeUpstream(parse, input);
            NormalizeUpstream(parse, n.base) == n && NormalizeUpstream(parse, n.ws) == n
  {
    var secure := Secure(parse(input).value.scheme);
    OriginReparses(parse, input, if secure then "https" else "http");
    OriginReparses(parse, input, if secure then "wss" else "ws");
  }

  /** Under either of the two scheme names, the printed origin means the same. */
  lemma OriginReparses(parse: UrlParser, input: string, scheme: string)
    requires Reparses(parse) && NormalizeUpstream(parse, input).Origin?
    requires scheme in SCHEMES && Secure(scheme) == Secure(parse(input).value.scheme)
    ensures NormalizeUpstream(parse, PrintBare(Cleared(parse(input).value, scheme))) == NormalizeUpstream(parse, input)
  {
    assert ReparsesAt(parse, input, scheme);
  }

  /** Which inputs are refused, and why, and what the others become: secure schemes stay
      secure, plain ones plain, and nothing but user, host and a bare `?` is kept. */
  lemma NormalizeByScheme(parse: UrlParser, input: string)
    ensures var n := NormalizeUpstream(parse, input);
            match parse(input)
            case None => n == Rejected(Unparsable)
            case Some(u) =>
              var rest := "://" + ((if u.user.Some? then u.user.value + "@" else "") + u.host) +
                          (if u.forceQuery then "?" else "");
              if u.scheme != "https" && u.scheme != "wss" && u.scheme != "http" && u.scheme != "ws" then
                n == Rejected(BadScheme)
              else if u.host == "" then n == Rejected(NoHost)
              else if u.scheme == "https" || u.scheme == "wss" then n == Origin("https" + rest, "wss" + rest)
              else n == Origin("http" + rest, "ws" + rest)
  {
    match parse(input)
    case None =>
    case Some(u) =>
      var authority := (if u.user.Some? then u.user.value + "@" else "") + u.host;
      forall scheme: string
        ensures scheme + ("://" + authority + (if u.forceQuery then "?" else "")) ==
                PrintBare(Cleared(u, scheme))
      {
        assert Authority(Cleared(u, scheme)) == authority;
      }
  }

  /** The URL the proxy dials: the WebSocket origin with the request's path and query. */
  function DialUrl(ws: string, path: string, rawQuery: string): string {
    ws + path + if rawQuery != "" then "?" + rawQuery else ""
  }

  /** The dialled URL is the upstream's authority followed by the request's path and
      query exactly when the configured upstream had no bare trailing `?`. */
  lemma DialsRequestPathExactly(parse: UrlParser, input: string, path: string, rawQuery: string)
    requires NormalizeUpstream(parse, input).Origin?
    ensures var u := parse(input).value;
            var scheme := if u.scheme == "https" || u.scheme == "wss" then "wss" else "ws";
            var authority := (if u.user.Some? then u.user.value + "@" else "") + u.host;
            var intended := scheme + "://" + authority + path + (if rawQuery != "" then "?" + rawQuery else "");
            DialUrl(NormalizeUpstream(parse, input).ws, path, rawQuery) == intended <==> !u.forceQuery
  {
  }

  // ------------------------------------------------------------------- configurations

  datatype Config = Config(
    listen: string,
    upstreamBase: string,
    upstreamWS: string,
    insecureSkipTLSVerify: bool,
    connectTimeout: int,
    idleTimeout: int,
    logLevel: string,
    language: string,
    autoStart: bool,
    themeMode: string)

  predicate ValidLanguage(language: string) {
    language in {"", "zh", "en"}
  }

  predicate ValidTheme(theme: string) {
    theme in {"", "dark", "light"}
  }

  predicate ValidLevel(level: string) {
    level in {"debug", "info", "warn", "error"}
  }

  predicate Validate(parse: UrlParser, cfg: Config) {
    && NormalizeUpstream(parse, cfg.upstreamBase).Origin?
    && ValidLanguage(cfg.language) && ValidTheme(cfg.themeMode)
    && cfg.connectTimeout > 0 && cfg.idleTimeout > 0
    && ValidLevel(cfg.logLevel)
  }

  /** The stored base is normalised and the WebSocket URL is its twin. */
  predicate MatchingPair(parse: UrlParser, cfg: Config) {
    NormalizeUpstream(parse, cfg.upstreamBase) == Origin(cfg.upstreamBase, cfg.upstreamWS)
  }

  /** What `SetConfig` makes of the configuration it is given: the WebSocket URL is
      always recomputed; `None` when it is turned down. */
  function Prepare(parse: UrlParser, cfg: Config): Option<Config> {
    match NormalizeUpstream(parse, cfg.upstreamBase)
    case Rejected(_) => None
    case Origin(base, ws) =>
      var next := cfg.(upstreamBase := base, upstreamWS := ws);
      if Validate(parse, next) then Some(next) else None
  }

  /** What a configuration has to be like to be accepted. */
  predicate Acceptable(parse: UrlParser, cfg: Config) {
    && NormalizeUpstream(parse, cfg.upstreamBase).Origin?
    && (cfg.language == "" || cfg.language == "zh" || cfg.language == "en")
    && (cfg.themeMode == "" || cfg.themeMode == "dark" || cfg.themeMode == "light")
    && cfg.connectTimeout > 0 && cfg.idleTimeout > 0
    && (cfg.logLevel == "debug" || cfg.logLevel == "info" || cfg.logLevel == "warn" || cfg.logLevel == "error")
  }

  /** Exactly those are accepted, and nothing about them changes but the two URLs. */
  lemma PrepareExactly(parse: UrlParser, cfg: Config)
    requires Reparses(parse)
    ensures Prepare(parse, cfg).Some? <==> Acceptable(parse, cfg)
    ensures var n := NormalizeUpstream(parse, cfg.upstreamBase);
            Prepare(parse, cfg).Some? ==>
            Prepare(parse, cfg).value == cfg.(upstreamBase := n.base, upstreamWS := n.ws)
  {
    if NormalizeUpstream(parse, cfg.upstreamBase).Origin? {
      NormalizeIsFixpoint(parse, cfg.upstreamBase);
    }
  }

  type DurationParser = string -> Option<int>

  /** The GUI form's fields as a configuration. */
  function BuildFromStrings(parse: UrlParser, duration: DurationParser, upstream: string, listen: string,
                            connect: string, idle: string, level: string, language: string, theme: string,
                            skipTLS: bool, autoStart: bool): Option<Config> {
    if duration(connect).None? || duration(idle).None? then None
    else match NormalizeUpstream(parse, upstream)
      case Rejected(_) => None
      case Origin(base, ws) =>
        var cfg := Config(listen, base, ws, skipTLS, duration(connect).value, duration(idle).value, level, language,
                          autoStart, theme);
        if Validate(parse, cfg) then Some(cfg) else None
  }

  // ---------------------------------------------------------------- file and environment

  /** The file's contents; absence differs from an empty string. */
  datatype FileConfig = FileConfig(
    listen: Option<string>,
    upstreamBase: Option<string>,
    insecureSkipTLSVerify: Option<bool>,
    connectTimeout: Option<string>,
    idleTimeout: Option<string>,
    logLevel: Option<string>,
    language: Option<string>,
    autoStart: Option<bool>,
    themeMode: Option<string>)

  /** The environment variables that are looked at. */
  datatype Variable =
    | UPSTREAM_BASE | CONNECT_TIMEOUT | IDLE_TIMEOUT | UPSTREAM_INSECURE_SKIP_TLS_VERIFY
    | CC2WS_LANG | CC2WS_AUTOSTART | CC2WS_THEME | LISTEN | LOG_LEVEL

  /** Unset and empty variables are the same. */
  type Env = Variable -> string

  function Pick<T>(v: Option<T>, default: T): T {
    if v.Some? then v.value else default
  }

  function EnvOr(env: Env, key: Variable, default: string): string {
    if env(key) != "" then env(key) else default
  }

  function BoolToStr(b: bool): string {
    if b then "true" else "false"
  }

  function ParseBool(s: string): Option<bool> {
    if s in {"1", "t", "T", "TRUE", "true", "True"} then Some(true)
    else if s in {"0", "f", "F", "FALSE", "false", "False"} then Some(false)
    else None
  }

  function SaveConfig(show: int -> string, cfg: Config): FileConfig {
    FileConfig(Some(cfg.listen), Some(cfg.upstreamBase), Some(cfg.insecureSkipTLSVerify),
               Some(show(cfg.connectTimeout)), Some(show(cfg.idleTimeout)), Some(cfg.logLevel),
               Some(cfg.language), Some(cfg.autoStart), Some(cfg.themeMode))
  }

  function LoadConfig(parse: UrlParser, duration: DurationParser, env: Env, file: FileConfig): Option<Config> {
    var base := EnvOr(env, UPSTREAM_BASE, Pick(file.upstreamBase, ""));
    if base == "" then None
    else match NormalizeUpstream(parse, base)
      case Rejected(_) => None
      case Origin(nb, ws) =>
        var ct := duration(EnvOr(env, CONNECT_TIMEOUT, Pick(file.connectTimeout, "10s")));
        var it := duration(EnvOr(env, IDLE_TIMEOUT, Pick(file.idleTimeout, "600s")));
        var skip := ParseBool(
          EnvOr(env, UPSTREAM_INSECURE_SKIP_TLS_VERIFY, BoolToStr(Pick(file.insecureSkipTLSVerify, false))));
        var auto := ParseBool(EnvOr(env, CC2WS_AUTOSTART, BoolToStr(Pick(file.autoStart, false))));
        if ct.None? || it.None? || skip.None? || auto.None? then None
        else Some(Config(
          EnvOr(env, LISTEN, Pick(file.listen, "127.0.0.1:18080")), nb, ws, skip.value, ct.value, it.value,
          EnvOr(env, LOG_LEVEL, Pick(file.logLevel, "info")),
          EnvOr(env, CC2WS_LANG, Pick(file.language, "zh")), auto.value,
          EnvOr(env, CC2WS_THEME, Pick(file.themeMode, "dark"))))
  }

  // ------------------------------------------------------------------------ properties

  /** A setting as it should be layered: environment, then file, then default. */
  function Layered(variable: string, stored: Option<string>, default: string): string {
    if variable != "" then variable
    else match stored case Some(v) => v case None => default
  }

  lemma NormalizedIsMatching(parse: UrlParser, input: string, cfg: Config)
    requires Reparses(parse) && NormalizeUpstream(parse, input) == Origin(cfg.upstreamBase, cfg.upstreamWS)
    ensures MatchingPair(parse, cfg)
  {
    NormalizeIsFixpoint(parse, input);
  }

  /** Every way of obtaining a configuration yields a matching pair: what `SetConfig`
      stores, */
  lemma PreparedMatches(parse: UrlParser, cfg: Config)
    requires Reparses(parse) && Prepare(parse, cfg).Some?
    ensures MatchingPair(parse, Prepare(parse, cfg).value)
  {
    NormalizedIsMatching(parse, cfg.upstreamBase, Prepare(parse, cfg).value);
  }

  /** what is loaded at start-up, */
  lemma LoadedMatches(parse: UrlParser, duration: DurationParser, env: Env, file: FileConfig)
    requires Reparses(parse) && LoadConfig(parse, duration, env, file).Some?
    ensures MatchingPair(parse, LoadConfig(parse, duration, env, file).value)
  {
    var base := EnvOr(env, UPSTREAM_BASE, Pick(file.upstreamBase, ""));
    NormalizedIsMatching(parse, base, LoadConfig(parse, duration, env, file).value);
  }

  /** and what is built from the form. */
  lemma BuiltMatches(parse: UrlParser, duration: DurationParser, upstream: string, listen: string, connect: string,
                     idle: string, level: string, language: string, theme: string, skipTLS: bool, autoStart: bool)
    requires Reparses(parse)
    ensures var built := BuildFromStrings(parse, duration, upstream, listen, connect, idle, level, language, theme,
                                          skipTLS, autoStart);
            built.Some? ==> MatchingPair(parse, built.value)
  {
    if NormalizeUpstream(parse, upstream).Origin? {
      NormalizeIsFixpoint(parse, upstream);
    }
  }

  /** A switch in the environment. */
  predicate SwitchedOn(variable: string) {
    || variable == "1" || variable == "t" || variable == "T"
    || variable == "TRUE" || variable == "true" || variable == "True"
  }

  predicate SwitchedOff(variable: string) {
    || variable == "0" || variable == "f" || variable == "F"
    || variable == "FALSE" || variable == "false" || variable == "False"
  }

  /** Unset, the file decides, and without it the switch is off. */
  predicate SwitchLayered(on: bool, variable: string, stored: Option<bool>) {
    if variable != "" then on == SwitchedOn(variable) else on == (stored == Some(true))
  }

  /** Every setting of a loaded configuration comes from its own variable, else from its
      own member of the file, else from its default. */
  lemma LoadLayers(parse: UrlParser, duration: DurationParser, env: Env, file: FileConfig)
    requires LoadConfig(parse, duration, env, file).Some?
    ensures var cfg := LoadConfig(parse, duration, env, file).value;
            && Origin(cfg.upstreamBase, cfg.upstreamWS) ==
               NormalizeUpstream(parse, Layered(env(UPSTREAM_BASE), file.upstreamBase, ""))
            && cfg.listen == Layered(env(LISTEN), file.listen, "127.0.0.1:18080")
            && Some(cfg.connectTimeout) == duration(Layered(env(CONNECT_TIMEOUT), file.connectTimeout, "10s"))
            && Some(cfg.idleTimeout) == duration(Layered(env(IDLE_TIMEOUT), file.idleTimeout, "600s"))
            && cfg.logLevel == Layered(env(LOG_LEVEL), file.logLevel, "info")
            && cfg.language == Layered(env(CC2WS_LANG), file.language, "zh")
            && cfg.themeMode == Layered(env(CC2WS_THEME), file.themeMode, "dark")
            && SwitchLayered(cfg.insecureSkipTLSVerify, env(UPSTREAM_INSECURE_SKIP_TLS_VERIFY),
                             file.insecureSkipTLSVerify)
            && SwitchLayered(cfg.autoStart, env(CC2WS_AUTOSTART), file.autoStart)
  {
  }

  /** Loading fails exactly when there is no usable upstream, a duration does not parse,
      or a switch is neither on nor off. */
  lemma LoadFailsExactly(parse: UrlParser, duration: DurationParser, env: Env, file: FileConfig)
    ensures var upstream := Layered(env(UPSTREAM_BASE), file.upstreamBase, "");
            var skip, auto := env(UPSTREAM_INSECURE_SKIP_TLS_VERIFY), env(CC2WS_AUTOSTART);
            LoadConfig(parse, duration, env, file).None? <==>
            || upstream == "" || NormalizeUpstream(parse, upstream).Rejected?
            || duration(Layered(env(CONNECT_TIMEOUT), file.connectTimeout, "10s")).None?
            || duration(Layered(env(IDLE_TIMEOUT), file.idleTimeout, "600s")).None?
            || (skip != "" && !SwitchedOn(skip) && !SwitchedOff(skip))
            || (auto != "" && !SwitchedOn(auto) && !SwitchedOff(auto))
  {
  }

  /** The form's fields each end up in their own setting, if they are acceptable. */
  lemma BuiltExactly(parse: UrlParser, duration: DurationParser, upstream: string, listen: string, connect: string,
                     idle: string, level: string, language: string, theme: string, skipTLS: bool, autoStart: bool)
    requires Reparses(parse)
    ensures var built := BuildFromStrings(parse, duration, upstream, listen, connect, idle, level, language, theme,
                                          skipTLS, autoStart);
            var n, ct, it := NormalizeUpstream(parse, upstream), duration(connect), duration(idle);
            if n.Origin? && ct.Some? && it.Some? then
              var cfg := Config(listen, n.base, n.ws, skipTLS, ct.value, it.value, level, language, autoStart, theme);
              built == if Acceptable(parse, cfg) then Some(cfg) else None
            else built == None
  {
    if NormalizeUpstream(parse, upstream).Origin? {
      NormalizeIsFixpoint(parse, upstream);
    }
  }

  /** Saving a configuration and loading it with an empty environment gives it back
      exactly when its base and WebSocket URL are a matching pair. */
  lemma SaveLoadExactly(parse: UrlParser, show: int -> string, duration: DurationParser, env: Env, cfg: Config)
    requires forall d :: duration(show(d)) == Some(d)
    requires forall key :: env(key) == ""
    ensures LoadConfig(parse, duration, env, SaveConfig(show, cfg)) == Some(cfg) <==> MatchingPair(parse, cfg)
  {
  }

  /** So whatever `SetConfig` accepts survives a restart of the program. */
  lemma AcceptedConfigSurvives(parse: UrlParser, show: int -> string, duration: DurationParser, env: Env, cfg: Config)
    requires Reparses(parse) && Prepare(parse, cfg).Some?
    requires forall d :: duration(show(d)) == Some(d)
    requires forall key :: env(key) == ""
    ensures LoadConfig(parse, duration, env, SaveConfig(show, Prepare(parse, cfg).value)) == Prepare(parse, cfg)
  {
    var next := Prepare(parse, cfg).value;
    NormalizedIsMatching(parse, cfg.upstreamBase, next);
    SaveLoadExactly(parse, show, duration, env, next);
  }
}
