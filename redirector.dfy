/**
 The vanity import path server: its configuration, how each setting is
 defaulted from the command line and the environment, how the listen
 address is filled in, which listener is started, and how a request path is
 resolved into the values the HTML page substitutes (the `go-import` meta
 content and the browser redirect).
 */
module GoPkgRedir {
  import opened GoStrings

  const DefaultListenAddress := "[::1]:80"
  const DefaultTLSListenAddress := "[::1]:443"

  /** The process-wide configuration. */
  datatype Config = Config(
    importPrefix: string,
    vcs: string,
    repoRoot: string,
    redirectURL: string,
    listenAddress: string,
    tlsCertFile: string,
    tlsKeyFile: string)

  /** The values one request renders: a copy of the configuration (whose
      redirect URL the resolver may replace), the request path and the
      repository name taken from it. */
  datatype Context = Context(config: Config, package: string, repoName: string)

  // ---------------------------------------------------------------------
  // Request resolution

  /** The handler's construction of the template context for a request whose
      URL path is `path`. The repository name is element 1 of the path split
      on "/", when there is one; the redirect URL is the configured one, or
      the repository root followed by the path when none is configured. */
  function Resolve(path: string, cfg: Config): (ctx: Context)
    ensures ctx.package == path
    ensures ctx.config.(redirectURL := cfg.redirectURL) == cfg
    ensures cfg.redirectURL != "" ==> ctx.config.redirectURL == cfg.redirectURL
    ensures cfg.redirectURL == "" ==> ctx.config.redirectURL == cfg.repoRoot + path
  {
    var pkg := Split(path, '/');
    var repoName := if |pkg| > 1 then pkg[1] else "";
    var redirect := if |cfg.redirectURL| == 0 then cfg.repoRoot + path else cfg.redirectURL;
    Context(cfg.(redirectURL := redirect), path, repoName)
  }

  /** A path without any "/" has an empty repository name. */
  lemma RepoNameWithoutSlash(path: string, cfg: Config)
    requires '/' !in path
    ensures Resolve(path, cfg).repoName == ""
  {
    SplitWithoutSep(path, '/');
  }

  /** When `i` is the first "/" of the path and `j` the next "/" after it (or
      the end of the path), the repository name is the text strictly between
      them. Together with RepoNameWithoutSlash this fixes the repository name
      of every path. */
  lemma RepoNameBetweenSlashes(path: string, cfg: Config, i: nat, j: nat)
    requires i < j <= |path|
    requires path[i] == '/' && '/' !in path[..i]
    requires '/' !in path[i + 1..j]
    requires j == |path| || path[j] == '/'
    ensures Resolve(path, cfg).repoName == path[i + 1..j]
  {
    var first, name := path[..i], path[i + 1..j];
    if j == |path| {
      assert path == first + ['/'] + name;
      SplitAfterSep(first, name, '/');
      SplitWithoutSep(name, '/');
    } else {
      var rest := path[j + 1..];
      assert path == first + ['/'] + (name + ['/'] + rest);
      SplitAfterSep(first, name + ['/'] + rest, '/');
      SplitAfterSep(name, rest, '/');
    }
  }

  // The repository name of the paths the code meets at its edges: element 1
  // of the split, not the first non-empty segment.

  /** A nested package path names its first segment. */
  lemma RepoNameOfNestedPath(cfg: Config)
    ensures Resolve("/foo/bar", cfg).repoName == "foo"
  {
  }

  /** The empty path and the root path name no repository. */
  lemma RepoNameOfRoot(cfg: Config)
    ensures Resolve("", cfg).repoName == ""
    ensures Resolve("/", cfg).repoName == ""
  {
  }

  /** A doubled leading slash names no repository, although a non-empty
      segment follows. */
  lemma RepoNameOfDoubleSlash(cfg: Config)
    ensures Resolve("//foo", cfg).repoName == ""
  {
  }

  /** Without a leading slash the segment after the first slash is named. */
  lemma RepoNameWithoutLeadingSlash(cfg: Config)
    ensures Resolve("a/b", cfg).repoName == "b"
  {
  }

  /** A configured redirect URL is used for every request, whatever its path. */
  lemma RedirectOverrideIgnoresPath(p: string, q: string, cfg: Config)
    requires cfg.redirectURL != ""
    ensures Resolve(p, cfg).config.redirectURL == Resolve(q, cfg).config.redirectURL == cfg.redirectURL
  {
  }

  // ---------------------------------------------------------------------
  // The go-import meta content

  /** The import path the page declares: the prefix followed by the request path. */
  function ImportPath(ctx: Context): string
  {
    ctx.config.importPrefix + ctx.package
  }

  /** The repository URL the page declares: the root, "/", the repository name. */
  function RepoURL(ctx: Context): string
  {
    ctx.config.repoRoot + "/" + ctx.repoName
  }

  /** The `content` attribute of the `go-import` meta tag, before HTML
      escaping: the import path, the VCS kind and the repository URL, with a
      single space after each of the first two. */
  function GoImportContent(ctx: Context): (content: string)
    ensures content == ImportPath(ctx) + " " + ctx.config.vcs + " " + RepoURL(ctx)
    ensures content[..|ImportPath(ctx)|] == ImportPath(ctx)
    ensures content[|content| - |RepoURL(ctx)|..] == RepoURL(ctx)
  {
    ctx.config.importPrefix + ctx.package + " " + ctx.config.vcs + " " + ctx.config.repoRoot + "/" + ctx.repoName
  }

  /** The go-import content is the import path, the VCS kind and the
      repository URL separated by single spaces: a reader that splits it on
      " " gets the three fields back whenever none of them holds a space. */
  lemma GoImportFields(ctx: Context)
    requires ' ' !in ImportPath(ctx) && ' ' !in ctx.config.vcs && ' ' !in RepoURL(ctx)
    ensures Split(GoImportContent(ctx), ' ') == [ImportPath(ctx), ctx.config.vcs, RepoURL(ctx)]
  {
    var parts := [ImportPath(ctx), ctx.config.vcs, RepoURL(ctx)];
    assert Join(parts, ' ') == GoImportContent(ctx) by {
      assert parts[1..] == [ctx.config.vcs, RepoURL(ctx)];
      assert parts[1..][1..] == [RepoURL(ctx)];
      calc {
        Join(parts, ' ');
        ImportPath(ctx) + [' '] + Join(parts[1..], ' ');
        ImportPath(ctx) + [' '] + (ctx.config.vcs + [' '] + RepoURL(ctx));
        GoImportContent(ctx);
      }
    }
    SplitJoin(parts, ' ');
  }

  /** Without a configured redirect URL, a request for a repository
      `/name`, or for a package `/name/...` inside it, declares the
      repository URL root + "/name", and browsers are sent to that URL
      followed by the rest of the path. */
  lemma RedirectExtendsRepoURL(name: string, tail: string, cfg: Config)
    requires cfg.redirectURL == ""
    requires '/' !in name
    requires tail == [] || tail[0] == '/'
    ensures RepoURL(Resolve("/" + name + tail, cfg)) == cfg.repoRoot + "/" + name
    ensures Resolve("/" + name + tail, cfg).config.redirectURL == RepoURL(Resolve("/" + name + tail, cfg)) + tail
  {
    var path := "/" + name + tail;
    var j := if tail == [] then |path| else 1 + |name|;
    assert path[..0] == [] && path[1..j] == name;
    RepoNameBetweenSlashes(path, cfg, 0, j);
  }

  /** Every package `/name/...` of a repository declares the same
      repository in its go-import content: root + "/name". */
  lemma GoImportDeclaresRepository(name: string, tail: string, cfg: Config)
    requires '/' !in name
    requires tail == [] || tail[0] == '/'
    ensures GoImportContent(Resolve("/" + name + tail, cfg)) ==
            cfg.importPrefix + ("/" + name + tail) + " " + cfg.vcs + " " + cfg.repoRoot + "/" + name
  {
    var path := "/" + name + tail;
    var j := if tail == [] then |path| else 1 + |name|;
    assert path[..0] == [] && path[1..j] == name;
    RepoNameBetweenSlashes(path, cfg, 0, j);
  }

  // ---------------------------------------------------------------------
  // Start-up configuration

  /** `os.Getenv`: the value of the variable, "" when it is not set. */
  function Getenv(env: map<string, string>, key: string): (value: string)
    ensures key in env ==> value == env[key]
    ensures key !in env ==> value == ""
  {
    if key in env then env[key] else ""
  }

  /** The environment's value for `envVar`, or `fallback` when that value is
      empty (unset and set-to-empty are alike). */
  function GetDefaultString(env: map<string, string>, envVar: string, fallback: string): (r: string)
    ensures envVar in env && env[envVar] != "" ==> r == env[envVar]
    ensures envVar !in env || env[envVar] == "" ==> r == fallback
    ensures r == "" <==> Getenv(env, envVar) == "" && fallback == ""
  {
    var ret := Getenv(env, envVar);
    if |ret| == 0 then fallback else ret
  }

  /** One string setting after the command line is parsed: the value of the
      flag `name` when it was given (even if empty), otherwise its default,
      which comes from the environment variable `envVar` or `fallback`. */
  function Setting(flags: map<string, string>, name: string,
                   env: map<string, string>, envVar: string, fallback: string): (r: string)
    ensures name in flags ==> r == flags[name]
    ensures name !in flags && Getenv(env, envVar) != "" ==> r == env[envVar]
    ensures name !in flags && Getenv(env, envVar) == "" ==> r == fallback
  {
    if name in flags then flags[name] else GetDefaultString(env, envVar, fallback)
  }

  /** The configuration the flag definitions produce from the given flags
      and environment. */
  function ParsedConfig(env: map<string, string>, flags: map<string, string>): (c: Config)
    ensures c.importPrefix == Setting(flags, "import-prefix", env, "IMPORT_PREFIX", "")
    ensures c.vcs == Setting(flags, "vcs", env, "VCS", "git")
    ensures c.repoRoot == Setting(flags, "repo-root", env, "REPO_ROOT", "")
    ensures c.redirectURL == Setting(flags, "redirect-url", env, "REDIRECT_URL", "")
    ensures c.listenAddress == Setting(flags, "listen-address", env, "LISTEN_ADDRESS", "")
    ensures c.tlsCertFile == Setting(flags, "tls-cert-file", env, "TLS_CERT_FILE", "")
    ensures c.tlsKeyFile == Setting(flags, "tls-key-file", env, "TLS_KEY_FILE", "")
    ensures "vcs" !in flags ==> c.vcs != ""
  {
    Config(
      Setting(flags, "import-prefix", env, "IMPORT_PREFIX", ""),
      Setting(flags, "vcs", env, "VCS", "git"),
      Setting(flags, "repo-root", env, "REPO_ROOT", ""),
      Setting(flags, "redirect-url", env, "REDIRECT_URL", ""),
      Setting(flags, "listen-address", env, "LISTEN_ADDRESS", ""),
      Setting(flags, "tls-cert-file", env, "TLS_CERT_FILE", ""),
      Setting(flags, "tls-key-file", env, "TLS_KEY_FILE", ""))
  }

  /** The VCS kind is "git" unless the flag or a non-empty `VCS` says otherwise. */
  lemma VcsDefaultsToGit(env: map<string, string>, flags: map<string, string>)
    ensures "vcs" !in flags && Getenv(env, "VCS") == "" ==> ParsedConfig(env, flags).vcs == "git"
    ensures "vcs" !in flags && Getenv(env, "VCS") != "" ==> ParsedConfig(env, flags).vcs == env["VCS"]
    ensures "vcs" in flags ==> ParsedConfig(env, flags).vcs == flags["vcs"]
  {
  }

  /** With no flags and an empty environment, every setting is empty except
      the VCS kind. */
  lemma ParsedConfigBare()
    ensures ParsedConfig(map[], map[]) == Config("", "git", "", "", "", "", "")
  {
  }

  // ---------------------------------------------------------------------
  // Listen address and listener

  /** TLS is served exactly when both the certificate and the key file are set. */
  function TLSEnabled(c: Config): (enabled: bool)
    ensures enabled <==> c.tlsCertFile != "" && c.tlsKeyFile != ""
  {
    |c.tlsCertFile| > 0 && |c.tlsKeyFile| > 0
  }

  /** The configuration after the listen address is defaulted: a set address
      stays; an empty one becomes the TLS default when TLS is enabled and the
      plain default otherwise. */
  function WithListenAddress(c: Config): (r: Config)
    ensures r.(listenAddress := c.listenAddress) == c
    ensures r.listenAddress != ""
    ensures c.listenAddress != "" ==> r == c
    ensures c.listenAddress == "" ==> (r.listenAddress == DefaultTLSListenAddress <==> TLSEnabled(c))
    ensures c.listenAddress == "" && !TLSEnabled(c) ==> r.listenAddress == DefaultListenAddress
  {
    if |c.listenAddress| != 0 then c
    else if TLSEnabled(c) then c.(listenAddress := DefaultTLSListenAddress)
    else c.(listenAddress := DefaultListenAddress)
  }

  /** Defaulting the listen address a second time changes nothing. */
  lemma WithListenAddressIdempotent(c: Config)
    ensures WithListenAddress(WithListenAddress(c)) == WithListenAddress(c)
  {
  }

  /** The listener `serve` opens. */
  datatype Listener =
    | Https(address: string, certFile: string, keyFile: string)
    | Http(address: string)

  /** The listener `serve` starts for a configuration: TLS with the
      configured files exactly when TLS is enabled, plain HTTP otherwise, on
      the configured address either way. */
  function Serve(c: Config): (l: Listener)
    ensures l.address == c.listenAddress
    ensures l.Https? <==> TLSEnabled(c)
    ensures l.Https? ==> l.certFile == c.tlsCertFile && l.keyFile == c.tlsKeyFile
  {
    if TLSEnabled(c) then Https(c.listenAddress, c.tlsCertFile, c.tlsKeyFile)
    else Http(c.listenAddress)
  }

  /** When no listen address is given, the defaulted port matches the
      protocol served on it: 443 for TLS, 80 for plain HTTP. */
  lemma DefaultPortMatchesProtocol(c: Config)
    requires c.listenAddress == ""
    ensures Serve(WithListenAddress(c)) ==
            if TLSEnabled(c) then Https(DefaultTLSListenAddress, c.tlsCertFile, c.tlsKeyFile)
            else Http(DefaultListenAddress)
  {
  }

  /** The package-level configuration, which start-up fills in and updates
      before any request is served. */
  class Server {
    var cfg: Config

    /** The flag definitions and the parse of the command line. */
    constructor (env: map<string, string>, flags: map<string, string>)
      ensures cfg == ParsedConfig(env, flags)
    {
      cfg := ParsedConfig(env, flags);
    }

    /** Fills in an empty listen address in place. */
    method SetupListenAddress()
      modifies this
      ensures cfg == WithListenAddress(old(cfg))
    {
      if |cfg.listenAddress| != 0 {
        return;
      }
      if |cfg.tlsCertFile| > 0 && |cfg.tlsKeyFile| > 0 {
        cfg := cfg.(listenAddress := DefaultTLSListenAddress);
        return;
      }
      cfg := cfg.(listenAddress := DefaultListenAddress);
    }
  }

  /** Start-up: parse the configuration, default the listen address, and
      pick the listener to serve on. The listener always has an address, and
      it speaks TLS exactly when both TLS files were configured. */
  method Start(env: map<string, string>, flags: map<string, string>) returns (l: Listener)
    ensures l == Serve(WithListenAddress(ParsedConfig(env, flags)))
    ensures l.address != ""
    ensures l.Https? <==> TLSEnabled(ParsedConfig(env, flags))
  {
    var server := new Server(env, flags);
    server.SetupListenAddress();
    l := Serve(server.cfg);
  }
}
