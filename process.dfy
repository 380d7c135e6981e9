/**
 * What the code sees of the processes it launches, and the observable side
 * effects of a request handler.  A collaborator process is modelled as a
 * function from its argument vector to its result, supplied by the caller.
 */
module Process {
  import opened Wrappers
  import opened Strings
  import opened Json

  /** What Node's `child_process.exec` hands its callback: the error's message when the command failed, stdout and stderr. */
  datatype ExecResult = ExecResult(error: Option<string>, stdout: string, stderr: string)

  /** The exit code and the captured output of a finished process (Python `subprocess.run`, Node `spawn` on close). */
  datatype Completed = Completed(code: int, stdout: string, stderr: string)

  /** The parts of a WHATWG URL the JavaScript validators read. */
  datatype UrlParts = UrlParts(hostname: string, pathname: string)

  /** `new URL(url)`; None where the constructor throws. */
  type UrlParser = string -> Option<UrlParts>

  /** A hostname containing "open.spotify.com" contains "spotify.com", so a test for the former after the latter adds nothing. */
  lemma OpenSpotifyHost(h: string)
    requires Contains(h, "open.spotify.com")
    ensures Contains(h, "spotify.com")
  {
    assert "open.spotify.com"[5..16] == "spotify.com";
    ContainsInner(h, "open.spotify.com", "spotify.com", 5);
  }

  /** A side effect, in the order the handler performs it. */
  datatype Effect =
    | Spawn(argv: seq<string>)
    | Exec(command: string)
    | MakeDir(path: string)
    | WriteFile(path: string, content: Json)
    | LaunchBrowser(args: seq<string>)

  /**
   * The file-system calls a handler makes (`MakeDir`, `WriteFile`): the
   * message of the error the call raises, or None when it succeeds.
   */
  type FileSystem = Effect -> Option<string>

  /** Every file-system call in the trace succeeded. */
  predicate FileCallsSucceeded(effects: seq<Effect>, fs: FileSystem) {
    forall k :: 0 <= k < |effects| && (effects[k].MakeDir? || effects[k].WriteFile?) ==> fs(effects[k]).None?
  }

  /** Two file-system calls that both succeed. */
  lemma FileCallsOfTwo(a: Effect, b: Effect, fs: FileSystem)
    requires fs(a).None? && fs(b).None?
    ensures FileCallsSucceeded([a, b], fs)
  {
  }

  /** A command launched before a trace adds no file-system call. */
  lemma FileCallsAfterCommand(e: Effect, rest: seq<Effect>, fs: FileSystem)
    requires e.Spawn? || e.Exec?
    requires FileCallsSucceeded(rest, fs)
    ensures FileCallsSucceeded([e] + rest, fs)
  {
    var all := [e] + rest;
    forall k | 0 <= k < |all| && (all[k].MakeDir? || all[k].WriteFile?) ensures fs(all[k]).None? {
      assert all[k] == rest[k - 1];
    }
  }

  /** The positions below n whose value passes `p`, ascending: the tracks a playlist loop works on. */
  function IndicesWhere(xs: seq<Json>, n: nat, p: Json -> bool): (r: seq<nat>)
    requires n <= |xs|
    ensures forall k :: 0 <= k < |r| ==> r[k] < n
    decreases n
  {
    if n == 0 then [] else IndicesWhere(xs, n - 1, p) + (if p(xs[n - 1]) then [n - 1] else [])
  }

  /** Exactly the positions that pass, each once, in ascending order. */
  lemma {:induction false} IndicesWhereSpec(xs: seq<Json>, n: nat, p: Json -> bool)
    requires n <= |xs|
    ensures forall k: nat :: k in IndicesWhere(xs, n, p) <==> k < n && p(xs[k])
    ensures forall a, b :: 0 <= a < b < |IndicesWhere(xs, n, p)| ==> IndicesWhere(xs, n, p)[a] < IndicesWhere(xs, n, p)[b]
    decreases n
  {
    if n > 0 {
      IndicesWhereSpec(xs, n - 1, p);
    }
  }

  /** An HTTP response: status and JSON body. */
  datatype Response = Response(status: int, body: Json)

  /** A handler's response together with the effects it performed. */
  datatype Handled = Handled(response: Response, effects: seq<Effect>)

  /** The number of processes a trace launches. */
  function SpawnCount(effects: seq<Effect>): (n: nat)
    ensures n <= |effects|
    ensures n == 0 <==> forall k :: 0 <= k < |effects| ==> !effects[k].Spawn?
    decreases |effects|
  {
    if |effects| == 0 then 0
    else (if effects[0].Spawn? then 1 else 0) + SpawnCount(effects[1..])
  }

  /** `{error: message}` */
  function ErrorBody(message: string): Json {
    JObj(map["error" := JStr(message)])
  }

  /** `{error: message, details: details}` */
  function ErrorDetailsBody(message: string, details: string): Json {
    JObj(map["error" := JStr(message), "details" := JStr(details)])
  }
}
