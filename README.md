# dockercfg credential resolution, modelled in Dafny

This project models the credential-resolution core of the `dockercfg` Go package (`auth.go`). Given a registry hostname, the package picks exactly one credential source. In order of precedence these are:

1. a per-host credential helper (`CredentialHelpers`);
2. the global `CredentialsStore`;
3. an inline `AuthConfigs` entry;
4. the platform's default helper.

A helper is an external program `docker-credential-<name>`. The package runs it with the single argument `get` and writes the hostname to its standard input. It then turns the run's result into a `(username, secret, error)` triple:

- a missing helper is not an error;
- two known failure messages are recognised;
- any other failure passes the run's error through;
- a successful run's output is decoded as `{Username, Secret}`.

Everything the Go code asks of the operating system is passed in as a value of `CredentialHelper.Environment`:

- the OS name (`runtime.GOOS`);
- the search-path lookup (`exec.LookPath`);
- running a program and capturing its standard output (`cmd.Output`);
- JSON decoding (`json.Unmarshal`).

Loading the configuration is passed in as a `Resolver.LoadResult`: the file does not exist, another error occurred, or the configuration was loaded. Every operation is a pure function of these inputs.

Each result is an `Outcome`. It holds the Go triple plus the helper run that produced it, if there was one. This makes "which helper was run, with what arguments and input" and "no helper was run" into statable properties.

Files:

- `wrappers.dfy`: `Option`.
- `go_strings.dfy` (module `GoStrings`): Go's `strings.TrimSpace`, which auth.go:74 applies to a failed helper's output. As in Go's `strings` package, it is `TrimFunc` (built from `TrimLeftFunc` and `TrimRightFunc`) over `unicode.IsSpace`.
- `credential_helper.dfy` (module `CredentialHelper`): `getCredentialHelper`, `GetCredentialsFromHelper`, the two sentinel errors, and the helper protocol.
- `resolver.dfy` (module `Resolver`): `(*Config).GetRegistryCredentials`, the top-level `GetRegistryCredentials`, and the source precedence. `SelectSource` is an independent reference definition of the precedence.

## Model

| member | source | states |
|---|---|---|
| GoStrings.TrimLeftFunc | auth.go:74 | the result is the suffix of the input left after its leading characters of the class are removed; every removed character is in the class, and the result does not start with one |
| GoStrings.TrimRightFunc | auth.go:74 | the result is the prefix of the input left after its trailing characters of the class are removed; every removed character is in the class, and the result does not end with one |
| GoStrings.TrimFunc | auth.go:74 | the input is the result with padding of the class on both sides, and the result has no character of the class at either end |
| GoStrings.TrimFuncPadded | auth.go:74 | trimming any padding of the class around a text whose ends are outside the class gives back exactly that text; together with TrimFunc's contract, this determines the trim |
| GoStrings.TrimSpace | auth.go:74 | the input is the result surrounded by whitespace (Go's `unicode.IsSpace`), and the result has no whitespace at either end |
| GoStrings.TrimSpacePadded | auth.go:74 | trimming any whitespace padding around a text with non-space ends gives back exactly that text |
| CredentialHelper.HelperProgram | auth.go:54-64 | the program name is exactly `docker-credential-` followed by the helper name |
| CredentialHelper.PlatformDefaultHelper | auth.go:98-111 | linux gives `pass` exactly when `pass` is on the search path, and otherwise `secretservice`; darwin gives `osxkeychain`; windows gives `wincred`; every other OS gives `""`; each in both directions |
| CredentialHelper.DefaultHelperDependsOnlyOnPass | auth.go:99-110 | the default depends on the search path only on linux, and there only on whether `pass` is found |
| CredentialHelper.SentinelsTrimmed | auth.go:46-50 | neither sentinel message starts or ends with whitespace, so trimming keeps it intact |
| CredentialHelper.FailureError | auth.go:73-83 | for a failed run, the trimmed output equal to a sentinel message yields that sentinel's error; any other output yields the run's own error |
| CredentialHelper.PaddedSentinelRecognised | auth.go:74-78 | a sentinel message with any whitespace around it, such as a trailing newline, is still classified as that sentinel |
| CredentialHelper.GetCredentialsFromHelper | auth.go:56-95 | no helper run happens exactly when there is no helper (after defaulting) or its program is not on the search path, and then the result is empty credentials with no error; a run uses the located program, the single argument `get` and the hostname as all of stdin; a failed run gives empty credentials and the classified error; a successful run gives the decoded username and secret, or empty credentials and the decoding error; any error comes with empty credentials and only after a run |
| CredentialHelper.SentinelReported | auth.go:64-83 | a helper that fails and prints either sentinel message, padded with whitespace, yields exactly that sentinel error, empty credentials, and the one `get` run with the hostname on stdin |
| Resolver.SelectSource | auth.go:28-44 | each source is chosen exactly when it is present and every source before it is absent (both directions); the chosen source carries the configured helper name or inline entry |
| Resolver.ConfigRegistryCredentials | auth.go:28-44 | the if-chain as written gives the same outcome as consulting the one source that the precedence selects |
| Resolver.GetRegistryCredentials | auth.go:16-25 | a missing configuration behaves as an empty configuration, so the platform default answers; any other load error is returned unchanged with empty credentials and no helper run; a loaded configuration answers through its selected source |
| Resolver.PerHostHelperWins | auth.go:29-32 | a per-host helper is the one asked, and changing the store or the inline entries does not change the result |
| Resolver.EmptyPerHostHelperMeansPlatformDefault | auth.go:29-31 | a per-host helper entry that is the empty string resolves through the platform default, even when a store or an inline entry exists |
| Resolver.StoreWinsOverInlineEntries | auth.go:34-36 | with no per-host helper, a non-empty store is the helper asked for every hostname, and the inline entries are never read |
| Resolver.InlineEntryReturnedVerbatim | auth.go:38-43 | with neither a per-host helper nor a store, an inline entry's username and password are returned as they stand, with no error and no helper run |
| Resolver.UnconfiguredHostUsesPlatformDefault | auth.go:38-41 | with no source configured for the hostname, the result is that of the platform-default helper lookup |

## Left out

- Process execution, the search-path lookup, the OS name and JSON decoding are parameters of `Environment`, not modelled. Two consequences follow:
  - `lookPath` returns `None` for every case where `exec.LookPath` reports an error, including a program found only relative to the current directory;
  - `decode` covers everything `json.Unmarshal` does, such as case-insensitive field names and absent fields left empty.
- Standard output is modelled as decoded characters, not bytes. `TrimSpace` follows Go's `unicode.IsSpace` (the Unicode White_Space set) for valid UTF-8. Invalid UTF-8 sequences, which Go never trims, are not represented.
- Loading and parsing the configuration file (`LoadDefaultConfig`, `Config`) is not part of this model. `Config` keeps only the fields the resolver reads. An inline entry keeps only its username and password.
- `os.IsNotExist` is the `NotExist` tag of `LoadResult`. Which Go errors satisfy it is not modelled.
- FailureError: errors are compared by message. In Go the returned error is a fresh `errors.New(s)`, not the exported `ErrCredentialsNotFound` or `ErrCredentialsMissingServerURL` value. So a caller's identity comparison (`==`, `errors.Is`) with the exported values fails, and only the message matches. The model does not represent error identity.
- The subprocess's standard error, its exit code and any time it blocks are not modelled. The code imposes no timeout and runs nothing concurrently.
