# gopkgredir in Dafny

gopkgredir is a small HTTP server that serves Go "vanity import path" pages.
A request for a path such as `/mypkg/sub` is answered with an HTML page. The
page's `go-import` meta tag tells the Go tool where the package's repository
is, and a refresh meta tag sends a browser to a human-facing URL.

This project models the logic of `main.go`:

- `go_strings.dfy` (module `GoStrings`) models Go's `strings.Split` for a
  one-character separator, the only `strings` function the server calls.
  `strings.Join` is modelled as its inverse: the two are proved inverse to
  each other, and a split is proved to have one more part than there are
  separators.
- `redirector.dfy` (module `GoPkgRedir`) models the rest:
  - the `config` record and the per-request `context`;
  - the handler's resolution of a request path into a context (`Resolve`);
  - the unescaped `go-import` content the template builds;
  - the start-up defaulting of each setting from a flag, an environment
    variable or a fallback;
  - the defaulting of the listen address, as a method on the package-level
    configuration object (`Server`);
  - the choice between the TLS and the plain HTTP listener in `serve`.

The handler reads the package-level configuration at request time. A
request for `path` therefore renders `Resolve(path, server.cfg)`.

The environment is a `map<string, string>`: an absent key is an unset
variable. The command-line flags that were given are another map, from flag
name to value.

Three consequences of the code are worth stating up front:

- The repository name is element 1 of the path split on "/". It is not the
  first non-empty segment. So `//foo` names no repository, and `a/b` names
  `b`.
- The `go-import` repository URL is the repository root, then "/", then the
  repository name. It is not the root followed by the whole package path: a
  request for `/mypkg/sub` declares the repository `<root>/mypkg`
  (`GoImportDeclaresRepository`). The browser redirect, on the other hand,
  keeps the whole path (`RedirectExtendsRepoURL`).
- There is no separate TLS listen address. One listener is started, and it
  uses TLS or plain HTTP.

## Model

| member | source | states |
|---|---|---|
| GoStrings.Split | main.go:150 | `strings.Split` on "/" never returns an empty list, and no part contains the separator |
| GoStrings.SplitLength | main.go:150-151 | the split has exactly one more part than the path has "/" characters, so `len(pkg) > 1` exactly when the path contains a "/" |
| GoStrings.JoinSplit | main.go:150 | joining the parts of a split with the separator gives back the original string |
| GoStrings.SplitWithoutSep | main.go:150 | a string without the separator splits into itself alone |
| GoStrings.SplitAfterSep | main.go:150 | a separator-free prefix followed by the separator becomes the first part, and the remainder is split on its own |
| GoStrings.SplitJoin | main.go:150 | splitting a join of non-empty, separator-free part lists gives back the parts |
| GoPkgRedir.Resolve | main.go:144-157 | the context's package is the request path, unchanged. Every configuration field other than the redirect URL is copied. The redirect URL is the configured one when it is non-empty, and otherwise the repository root followed by the path |
| GoPkgRedir.RepoNameWithoutSlash | main.go:150-153 | a path with no "/" has an empty repository name |
| GoPkgRedir.RepoNameBetweenSlashes | main.go:150-153 | the repository name is the text between the first "/" and the next "/" (or the end of the path) |
| GoPkgRedir.RepoNameOfNestedPath | main.go:150-153 | `/foo/bar` names `foo` |
| GoPkgRedir.RepoNameOfRoot | main.go:150-153 | the empty path and `/` name no repository |
| GoPkgRedir.RepoNameOfDoubleSlash | main.go:150-153 | `//foo` names no repository, because element 1 of the split is empty |
| GoPkgRedir.RepoNameWithoutLeadingSlash | main.go:150-153 | `a/b` names `b` |
| GoPkgRedir.RedirectOverrideIgnoresPath | main.go:155-157 | a non-empty configured redirect URL is the redirect for every request path |
| GoPkgRedir.GoImportFields | main.go:16 | the go-import content is the import path (prefix + package), the VCS kind and the repository URL (root + "/" + name), separated by single spaces. Splitting it on " " gives the three fields back when none of them contains a space |
| GoPkgRedir.GoImportDeclaresRepository | main.go:16 | every package `/name/...` declares the repository root + "/name" after its import path and VCS kind |
| GoPkgRedir.RedirectExtendsRepoURL | main.go:150-157 | with no configured redirect URL, a request for `/name` or `/name/...` declares the repository URL root + "/name". The browser is sent to that URL followed by the rest of the path |
| GoPkgRedir.GoImportContent | main.go:16 | the go-import content is the plain concatenation `ImportPrefix + Package + " " + VCS + " " + RepoRoot + "/" + RepoName`, before escaping. It starts with the import path and ends with the repository URL |
| GoPkgRedir.Getenv | main.go:106 | `os.Getenv`: the variable's value when it is set, and "" when it is not |
| GoPkgRedir.GetDefaultString | main.go:105-111 | returns the environment value when it is set and non-empty, and the fallback otherwise. The result is empty only when both are empty |
| GoPkgRedir.Setting | main.go:55-102 | a flag that was given wins, even when its value is empty. Otherwise a non-empty environment variable is used, and otherwise the fallback |
| GoPkgRedir.ParsedConfig | main.go:55-102 | each of the seven fields is `Setting` with its own flag name, environment variable and fallback: `import-prefix`/`IMPORT_PREFIX`/"", `vcs`/`VCS`/"git", `repo-root`/`REPO_ROOT`/"", `redirect-url`/`REDIRECT_URL`/"", `listen-address`/`LISTEN_ADDRESS`/"", `tls-cert-file`/`TLS_CERT_FILE`/"", `tls-key-file`/`TLS_KEY_FILE`/"". The VCS kind is never empty unless an empty `vcs` flag was given |
| GoPkgRedir.VcsDefaultsToGit | main.go:62-67 | the VCS kind is the `vcs` flag if given, else a non-empty `VCS` variable, else "git" |
| GoPkgRedir.ParsedConfigBare | main.go:55-102 | with no flags and an empty environment, every setting is empty except the VCS kind, which is "git" |
| GoPkgRedir.TLSEnabled | main.go:124 | TLS is enabled exactly when both the certificate file and the key file are non-empty. `setupListenAddress` and `serve` (main.go:133) use the same test |
| GoPkgRedir.WithListenAddress | main.go:119-130 | only the listen address can change. A set address is kept. An empty address becomes "[::1]:443" exactly when both TLS files are set, and "[::1]:80" otherwise. The result is never empty |
| GoPkgRedir.WithListenAddressIdempotent | main.go:119-130 | defaulting the listen address twice gives the same result as defaulting it once |
| GoPkgRedir.Serve | main.go:132-141 | the server listens on the configured address. It uses TLS with the configured certificate and key exactly when both are set, and plain HTTP otherwise |
| GoPkgRedir.DefaultPortMatchesProtocol | main.go:119-141 | when no listen address is given, TLS is served on port 443 and plain HTTP on port 80 |
| GoPkgRedir.Server.constructor | main.go:52-103 | the package-level configuration starts as the result of the flag definitions over the flags and environment |
| GoPkgRedir.Server.SetupListenAddress | main.go:119-130 | updates the configuration in place to the defaulted listen address, leaving every other field as it was |
| GoPkgRedir.Start | main.go:113-117 | start-up ends with a listener on a non-empty address. The listener uses TLS exactly when both TLS files were configured |

## Left out

- Serving and logging (`http.ListenAndServe`, `http.ListenAndServeTLS`,
  `log.Printf`, `log.Fatal`, main.go:132-141 and 116) are network I/O and
  logging. `Serve` returns the listener that would be opened.
- Writing the `Content-Type` header and executing the HTML template
  (main.go:159-163) are left out, and so is HTML escaping by
  `html/template`. The template library is not part of this model. Only the
  unescaped `go-import` content string is modelled (`GoImportContent`).
- Command-line syntax and `flag.Parse` (main.go:52-103, 114) are not
  modelled. The parsed command line is a map from flag name to value, and a
  flag that was given replaces its default.
- `os.Getenv` reads the process environment. Here the environment is an
  explicit map parameter.
- The HTTP request object is not modelled. The handler's input is the URL
  path string, `r.URL.Path`.
- magefile.go is not part of this model. It holds build, Docker and test
  targets that only call the `mg` and `zmage` build tools.
- Go strings are byte sequences, and `r.URL.Path` may hold bytes that are
  not valid UTF-8. Here paths and settings are sequences of characters. No
  behaviour is lost: splitting on the ASCII "/" and concatenating give the
  same result on bytes as on characters.
- Concurrency between requests is not modelled. The handler only reads the
  configuration, and nothing writes it after start-up.
