/**
 * The Terraform plugin framework values the resource handlers work with: a planned or stored
 * attribute is null, unknown or a known value, and a handler reports diagnostics.
 */
module Tf {
  import opened Wrappers
  import opened Transport

  /** `types.String`, `types.Bool`, `types.Int64`, `types.List`, `types.Set`. */
  datatype TfValue<+T> = Null | Unknown | Known(value: T)

  /** `ValueString`: the zero value "" for a null or unknown string. */
  function ValueString(v: TfValue<string>): (s: string)
    ensures v.Known? ==> s == v.value
    ensures !v.Known? ==> s == ""
  {
    if v.Known? then v.value else ""
  }

  /** `ValueBool`: false for a null or unknown flag. */
  function ValueBool(v: TfValue<bool>): (b: bool)
    ensures b <==> v == Known(true)
  {
    v.Known? && v.value
  }

  /** `ValueInt64`: 0 for a null or unknown number. */
  function ValueInt64(v: TfValue<int>): (n: int)
    ensures v.Known? ==> n == v.value
    ensures !v.Known? ==> n == 0
  {
    if v.Known? then v.value else 0
  }

  /**
   * A list converted with `ElementsAs` only when it is neither null nor unknown: the handlers
   * leave the Go slice nil otherwise.
   */
  function KnownList(v: TfValue<seq<string>>): (r: Option<seq<string>>)
    ensures r.Some? <==> v.Known?
    ensures r.Some? ==> r.value == v.value
  {
    if v.Known? then Some(v.value) else None
  }

  /**
   * The state value for a list fetched from the server: a null list when it is nil or empty,
   * so a stored list is never known and empty.
   */
  function ListOrNull(xs: Option<seq<string>>): (v: TfValue<seq<string>>)
    ensures v.Null? <==> xs.None? || xs.value == []
    ensures !v.Null? ==> v == Known(xs.value) && v.value != []
  {
    if xs.None? || xs.value == [] then Null else Known(xs.value)
  }

  /**
   * A schema `Default`: the framework puts the default into the plan when the configuration
   * leaves the attribute null.
   */
  function WithDefault<T>(configured: TfValue<T>, default: T): (planned: TfValue<T>)
    ensures !configured.Null? ==> planned == configured
    ensures configured.Null? ==> planned == Known(default)
  {
    if configured.Null? then Known(default) else configured
  }

  /** A diagnostic: its summary, and the attribute it is attached to when it has one. */
  datatype Diag =
    | Error(summary: string)
    | AttributeError(attribute: string, summary: string)

  /** The result of a Read: new state, the resource removed from state, or an error. */
  datatype ReadOutcome<+M> = Refreshed(state: M) | Removed | ReadFailed(diag: Diag)

  /**
   * What a handler, or a stretch of one, leaves behind: the request log, extended by the
   * requests it sent, and its outcome. Functions computing a `Run` take the log so far; the
   * next request is answered by the reply at the log's length.
   */
  datatype Run<+T> = Run(log: seq<Request>, outcome: Result<T, Diag>)

  /** A call without a result: success, or an error diagnostic with the given summary. */
  function Checked(replies: seq<Reply>, log: seq<Request>, req: Request, summary: string): Run<()> {
    Run(log + [req], if Outcome(At(replies, |log|)).Success? then Success(()) else Failure(Error(summary)))
  }

  /** The requests a run sent after the log it started from. */
  function Since<T>(run: Run<T>, log: seq<Request>): seq<Request>
    requires log <= run.log
  {
    run.log[|log|..]
  }

  /** What was sent after `log` up to `end` is what was sent up to `mid`, and what was sent after it. */
  lemma SinceSplit(log: seq<Request>, mid: seq<Request>, end: seq<Request>)
    requires log <= mid <= end
    ensures forall r :: r in end[|log|..] <==> r in mid[|log|..] || r in end[|mid|..]
  {
    assert end[|log|..] == mid[|log|..] + end[|mid|..];
  }

  /** A failed fetch in Read: a missing resource is removed from state, any other error reported. */
  function ReadError<M>(e: ApiError, summary: string): (r: ReadOutcome<M>)
    ensures r == Removed <==> e == NotFound
    ensures r != Removed ==> r == ReadFailed(Error(summary))
  {
    if e == NotFound then Removed else ReadFailed(Error(summary))
  }

  /** Delete succeeds when the call did, and also when the resource was already gone. */
  function DeleteResult(err: Option<ApiError>, summary: string): (d: Option<Diag>)
    ensures d.None? <==> err.None? || err == Some(NotFound)
    ensures d.Some? ==> d.value == Error(summary)
  {
    if err.None? || err == Some(NotFound) then None else Some(Error(summary))
  }

  /** `xs` lists the elements of `s`, each exactly once, in some order. */
  ghost predicate Enumerates(xs: seq<string>, s: set<string>) {
    |xs| == |s| && forall x :: x in xs <==> x in s
  }

  /**
   * `ElementsAs` on a known set: its elements as a slice, in an order this model leaves open.
   */
  method SetElements(s: set<string>) returns (xs: seq<string>)
    ensures Enumerates(xs, s)
  {
    xs := [];
    var rest := s;
    while rest != {}
      invariant rest <= s
      invariant |xs| + |rest| == |s|
      invariant forall x :: x in xs <==> x in s && x !in rest
      decreases |rest|
    {
      var x :| x in rest;
      xs := xs + [x];
      rest := rest - {x};
    }
  }
}
