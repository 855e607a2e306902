/**
 * The helper invoker of auth.go: choosing the platform's default credential
 * helper, running `docker-credential-<helper> get` with the hostname on
 * standard input, and classifying what the helper program returned.
 *
 * Everything the Go code asks of the operating system is a field of
 * `Environment`: the OS name (`runtime.GOOS`), the search-path lookup
 * (`exec.LookPath`), running a program and capturing its standard output
 * (`cmd.Output`), and decoding that output as JSON (`json.Unmarshal`).
 */
module CredentialHelper {
  import opened Wrappers
  import opened GoStrings

  /** A Go `error`, known here by its message. */
  datatype Error = Error(message: string)

  /** The two messages a helper prints when it fails for a known reason. */
  const ErrCredentialsNotFound := Error("credentials not found in native keychain")
  const ErrCredentialsMissingServerURL := Error("no credentials server URL")

  /** Every helper program is named by this prefix followed by the helper's name. */
  const HelperPrefix := "docker-credential-"
  /** The single argument that asks a helper to retrieve credentials. */
  const GetArgument := "get"

  /** One run of a program: the resolved path, its arguments and its whole standard input. */
  datatype Invocation = Invocation(path: string, args: seq<string>, stdin: string)

  /** What `cmd.Output` gives back: the captured standard output, and on a
      non-zero exit (or any other failure) the error it reports as well. */
  datatype ExecResult = Exited(stdout: string) | Failed(stdout: string, err: Error)

  /** What `json.Unmarshal` into `{Username, Secret}` gives back. */
  datatype Decoded = Decoded(username: string, secret: string) | Malformed(err: Error)

  datatype Environment = Environment(
    goos: string,
    lookPath: string -> Option<string>,
    run: Invocation -> ExecResult,
    decode: string -> Decoded)

  /** The Go triple `(username, secret, err)`, together with the helper run, if any,
      that produced it. */
  datatype Outcome = Outcome(username: string, secret: string, err: Option<Error>, invoked: Option<Invocation>)

  /** Empty credentials and no error: "no credential source available". */
  const NoCredentials := Outcome("", "", None, None)

  /** The name of the program that serves `helper`. */
  function HelperProgram(helper: string): (p: string)
    ensures |p| == |HelperPrefix| + |helper|
    ensures p[..|HelperPrefix|] == HelperPrefix && p[|HelperPrefix|..] == helper
  {
    HelperPrefix + helper
  }

  /** The default helper for an OS: `pass` on Linux when the `pass` program is on
      the search path, otherwise `secretservice`; the keychain on macOS; the
      credential manager on Windows; none ("") elsewhere. */
  function PlatformDefaultHelper(goos: string, lookPath: string -> Option<string>): (h: string)
    ensures h == "" <==> goos != "linux" && goos != "darwin" && goos != "windows"
    ensures h == "pass" <==> goos == "linux" && lookPath("pass").Some?
    ensures h == "secretservice" <==> goos == "linux" && lookPath("pass").None?
    ensures h == "osxkeychain" <==> goos == "darwin"
    ensures h == "wincred" <==> goos == "windows"
  {
    match goos
    case "linux" => if lookPath("pass").Some? then "pass" else "secretservice"
    case "darwin" => "osxkeychain"
    case "windows" => "wincred"
    case _ => ""
  }

  /** The search path matters to the default only on Linux, and there only
      through whether `pass` is found. */
  lemma DefaultHelperDependsOnlyOnPass(goos: string, lp1: string -> Option<string>, lp2: string -> Option<string>)
    requires goos == "linux" ==> lp1("pass").Some? == lp2("pass").Some?
    ensures PlatformDefaultHelper(goos, lp1) == PlatformDefaultHelper(goos, lp2)
  {
  }

  /** The helper that is actually used: the given one, or the platform default when it is empty. */
  function EffectiveHelper(helper: string, env: Environment): string
  {
    if helper == "" then PlatformDefaultHelper(env.goos, env.lookPath) else helper
  }

  /** A message is a sentinel when it is one of the two known helper failures. */
  predicate IsSentinelMessage(s: string) {
    s == ErrCredentialsNotFound.message || s == ErrCredentialsMissingServerURL.message
  }

  /** The error reported for a helper that exited with a failure: the sentinel
      whose message its trimmed output is, otherwise the error from the run itself. */
  function FailureError(stdout: string, runErr: Error): (e: Error)
    ensures TrimSpace(stdout) == ErrCredentialsNotFound.message ==> e == ErrCredentialsNotFound
    ensures TrimSpace(stdout) == ErrCredentialsMissingServerURL.message ==> e == ErrCredentialsMissingServerURL
    ensures !IsSentinelMessage(TrimSpace(stdout)) ==> e == runErr
  {
    var s := TrimSpace(stdout);
    if IsSentinelMessage(s) then Error(s) else runErr
  }

  /** Neither sentinel message starts or ends with whitespace. */
  lemma SentinelsTrimmed()
    ensures Trimmed(ErrCredentialsNotFound.message, IsSpace) && Trimmed(ErrCredentialsMissingServerURL.message, IsSpace)
  {
    var a, b := ErrCredentialsNotFound.message, ErrCredentialsMissingServerURL.message;
    assert a[0] == 'c' && a[|a| - 1] == 'n';
    assert b[0] == 'n' && b[|b| - 1] == 'L';
  }

  /** Helpers end their message with a newline (or other whitespace): however it
      is padded, a sentinel message is still recognised. */
  lemma {:induction false} PaddedSentinelRecognised(pre: string, post: string, runErr: Error)
    requires All(pre, IsSpace) && All(post, IsSpace)
    ensures FailureError(pre + ErrCredentialsNotFound.message + post, runErr) == ErrCredentialsNotFound
    ensures FailureError(pre + ErrCredentialsMissingServerURL.message + post, runErr) == ErrCredentialsMissingServerURL
  {
    SentinelsTrimmed();
    TrimSpacePadded(pre, ErrCredentialsNotFound.message, post);
    TrimSpacePadded(pre, ErrCredentialsMissingServerURL.message, post);
  }

  /** `GetCredentialsFromHelper`: look up credentials for `hostname` with the
      helper named `helper` (the platform default when empty). */
  function GetCredentialsFromHelper(helper: string, hostname: string, env: Environment): (o: Outcome)
    // No helper, or no helper program on the search path: empty, and not an error.
    ensures o.invoked.None? <==>
      (EffectiveHelper(helper, env) == "" || env.lookPath(HelperProgram(EffectiveHelper(helper, env))).None?)
    ensures o.invoked.None? ==> o == NoCredentials
    // The protocol: the located helper program, the one argument `get`, the hostname as all of stdin.
    ensures o.invoked.Some? ==>
      Some(o.invoked.value.path) == env.lookPath(HelperProgram(EffectiveHelper(helper, env)))
      && o.invoked.value.args == [GetArgument]
      && o.invoked.value.stdin == hostname
    // A failed run: empty credentials and the classified error.
    ensures o.invoked.Some? && env.run(o.invoked.value).Failed? ==>
      var res := env.run(o.invoked.value);
      o.username == "" && o.secret == "" && o.err == Some(FailureError(res.stdout, res.err))
    // A successful run: the decoded credentials, or empty ones and the decoding error.
    ensures o.invoked.Some? && env.run(o.invoked.value).Exited? ==>
      match env.decode(env.run(o.invoked.value).stdout)
      case Decoded(u, s) => o.username == u && o.secret == s && o.err == None
      case Malformed(e) => o.username == "" && o.secret == "" && o.err == Some(e)
    // Credentials come with no error, and only from a helper whose output decoded.
    ensures o.err.Some? ==> o.username == "" && o.secret == "" && o.invoked.Some?
  {
    var h := EffectiveHelper(helper, env);
    if h == "" then NoCredentials
    else match env.lookPath(HelperProgram(h))
      case None => NoCredentials
      case Some(path) =>
        var inv := Invocation(path, [GetArgument], hostname);
        match env.run(inv)
        case Failed(stdout, runErr) => Outcome("", "", Some(FailureError(stdout, runErr)), Some(inv))
        case Exited(stdout) =>
          match env.decode(stdout)
          case Malformed(e) => Outcome("", "", Some(e), Some(inv))
          case Decoded(u, s) => Outcome(u, s, None, Some(inv))
  }

  /** A helper that fails and prints one of the two sentinel messages, padded
      with whitespace such as its trailing newline, yields exactly that sentinel
      error and no credentials. */
  lemma SentinelReported(helper: string, hostname: string, env: Environment, path: string,
                         pre: string, sentinel: Error, post: string, runErr: Error)
    requires EffectiveHelper(helper, env) != ""
    requires env.lookPath(HelperProgram(EffectiveHelper(helper, env))) == Some(path)
    requires sentinel == ErrCredentialsNotFound || sentinel == ErrCredentialsMissingServerURL
    requires All(pre, IsSpace) && All(post, IsSpace)
    requires env.run(Invocation(path, [GetArgument], hostname)) == Failed(pre + sentinel.message + post, runErr)
    ensures GetCredentialsFromHelper(helper, hostname, env) ==
      Outcome("", "", Some(sentinel), Some(Invocation(path, [GetArgument], hostname)))
  {
    PaddedSentinelRecognised(pre, post, runErr);
  }
}
