/** The retrying request client. The transport, the JSON parser and the
    timers are not modelled: the transport is the sequence of outcomes its
    successive calls produce, the parser is an oracle, and each backoff wait
    is recorded as its duration instead of being slept. */
module Fetcher {
  import opened Arith
  import opened Wrappers
  import opened FetchConfig

  /** What one call of the transport produced. */
  datatype Attempt =
      /** the call, or reading the body, failed with an error not named AbortError */
    | NetworkError(message: string)
      /** the call failed with an AbortError: the attempt's timer fired */
    | Aborted
      /** a response arrived; `body` is its full text */
    | Response(ok: bool, status: int, body: string)

  /** A decoded body: `null` for the empty body, otherwise what the parser made of it. */
  datatype Data<J> = Null | Value(json: J)

  /** The errors the client raises. */
  datatype Failure =
    | TimedOut
    | InvalidJson
    | RequestFailed(message: string, status: int)
    | Transport(message: string)

  /** An error thrown inside one attempt, as the catch block first sees it. */
  datatype Raised = AbortError | Raise(failure: Failure)

  /** The verdict on one attempt. */
  datatype AttemptResult<J> = Success(data: Data<J>) | Failed(failure: Failure)

  /** How a whole call of the client ends: it resolves with a value, rejects
      with an error, or (when no attempt is allowed) resolves with `undefined`. */
  datatype Outcome<J> = Returned(data: Data<J>) | Thrown(failure: Failure) | Undefined

  const RequestFailedMessage: string := "Request failed"
  const InvalidJsonMessage: string := "Invalid JSON from server"
  const TimedOutMessage: string := "Request timed out"

  /** The message of the error the caller sees: fixed texts for a timeout and
      for a body that is not JSON, the carried message otherwise. */
  function Message(f: Failure): (m: string)
    ensures f.TimedOut? ==> m == TimedOutMessage
    ensures f.InvalidJson? ==> m == InvalidJsonMessage
    ensures f.RequestFailed? || f.Transport? ==> m == f.message
  {
    match f
    case TimedOut => TimedOutMessage
    case InvalidJson => InvalidJsonMessage
    case RequestFailed(m, _) => m
    case Transport(m) => m
  }

  /** Two to the power `i`. */
  function Pow2(i: nat): (p: nat)
    ensures p >= 1
  {
    if i == 0 then 1 else 2 * Pow2(i - 1)
  }

  /** The wait after failed attempt `i`: the base delay doubled `i` times, capped at `max`. */
  function Backoff(base: int, max: int, i: nat): (d: int)
    ensures d <= max && d <= base * Pow2(i)
    ensures d == max || d == base * Pow2(i)
  {
    Min(base * Pow2(i), max)
  }

  /** The number of attempts: the caller's count when given, else the configured one. */
  function Planned(attempts: Option<int>, configured: int): (n: int)
    ensures attempts.Some? ==> n == attempts.value
    ensures attempts.None? ==> n == configured
  {
    attempts.GetOr(configured)
  }

  /** The decoded body: null for an empty text, otherwise the parser's value;
      `None` stands for the parser throwing. */
  function Decode<J>(body: string, parse: string -> Option<J>): (r: Option<Data<J>>)
    // decoding fails exactly when a non-empty body does not parse
    ensures r.None? <==> body != "" && parse(body).None?
    // null comes from the empty body and only from it
    ensures r == Some(Null) <==> body == ""
    ensures r.Some? && r.value.Value? ==> parse(body) == Some(r.value.json)
  {
    if body == "" then Some(Null)
    else match parse(body)
      case None => None
      case Some(v) => Some(Value(v))
  }

  /** The message of a failed status: the decoded body's `error` member when
      there is one, else the generic text. The oracle `errorOf` gives a value's
      `error` member when the value and the member are truthy. */
  function ErrorMessage<J>(data: Data<J>, errorOf: J -> Option<string>): (m: string)
    // the message is the generic one or the body's own error member
    ensures m == RequestFailedMessage || (data.Value? && errorOf(data.json) == Some(m))
    // a body that carries an error member always supplies the message
    ensures data.Value? && errorOf(data.json).Some? ==> m == errorOf(data.json).value
    ensures data.Null? ==> m == RequestFailedMessage
  {
    match data
    case Null => RequestFailedMessage
    case Value(v) => errorOf(v).GetOr(RequestFailedMessage)
  }

  /** The verdict on one attempt, after an abort has been renamed a timeout. */
  function Classify<J>(a: Attempt, parse: string -> Option<J>, errorOf: J -> Option<string>): (r: AttemptResult<J>)
    // an attempt succeeds exactly when an ok response carries a body that decodes
    ensures r.Success? <==> a.Response? && a.ok && (a.body == "" || parse(a.body).Some?)
    // an empty body is null; any other body is the parser's value
    ensures r.Success? ==> r.data == if a.body == "" then Null else Value(parse(a.body).value)
    // decoding comes before the status: a body that does not parse is reported as such, ok or not
    ensures a.Response? && a.body != "" && parse(a.body).None? ==> r == Failed(InvalidJson)
    // a failed status carries the status and the body's error message, or the generic one
    ensures a.Response? && !a.ok && Decode(a.body, parse).Some? ==>
              r == Failed(RequestFailed(ErrorMessage(Decode(a.body, parse).value, errorOf), a.status))
    ensures a.Response? && !a.ok && a.body == "" ==> r == Failed(RequestFailed(RequestFailedMessage, a.status))
    // timeouts come from aborts and only from them
    ensures r == Failed(TimedOut) <==> a.Aborted?
    ensures a.NetworkError? ==> r == Failed(Transport(a.message))
  {
    match a
    case NetworkError(m) => Failed(Transport(m))
    case Aborted => Failed(TimedOut)
    case Response(ok, status, body) =>
      match Decode(body, parse)
      case None => Failed(InvalidJson)
      case Some(data) =>
        if ok then Success(data) else Failed(RequestFailed(ErrorMessage(data, errorOf), status))
  }

  lemma {:induction false} Pow2Monotone(i: nat, j: nat)
    requires i <= j
    ensures Pow2(i) <= Pow2(j)
    decreases j
  {
    if i < j { Pow2Monotone(i, j - 1); }
  }

  /** With a non-negative base the waits never shrink from one attempt to the next. */
  lemma BackoffNondecreasing(base: int, max: int, i: nat, j: nat)
    requires 0 <= base && i <= j
    ensures Backoff(base, max, i) <= Backoff(base, max, j)
  {
    Pow2Monotone(i, j);
    assert base * Pow2(i) <= base * Pow2(j) by {
      var k := Pow2(j) - Pow2(i);
      assert base * Pow2(j) == base * Pow2(i) + base * k;
    }
  }

  /** With a non-negative base and cap each wait doubles the one before until
      it reaches the cap. */
  lemma BackoffDoubles(base: int, max: int, i: nat)
    requires 0 <= base && 0 <= max
    ensures Backoff(base, max, i + 1) == Min(2 * Backoff(base, max, i), max)
  {
    assert Pow2(i + 1) == 2 * Pow2(i);
    assert base * Pow2(i + 1) == 2 * (base * Pow2(i));
  }

  /** `fetcher(input, init, attempts)`, reading the shared configuration `cfg`.
      `transport(i)` is what the `i`-th call of the transport produces.
      Returns how the call ends, how many transport calls it made, and the
      waits it performed in order. */
  method Fetch<J>(cfg: Config, attempts: Option<int>, transport: nat -> Attempt,
                  parse: string -> Option<J>, errorOf: J -> Option<string>)
    returns (out: Outcome<J>, calls: nat, waits: seq<int>)
    // no attempt allowed: no call, no wait, and the result is undefined
    ensures out.Undefined? <==> Planned(attempts, cfg.attempts) <= 0
    ensures out.Undefined? ==> calls == 0 && waits == []
    // otherwise at most the planned number of calls, and at least one
    ensures !out.Undefined? ==> 1 <= calls <= Planned(attempts, cfg.attempts)
    // every attempt before the last one made failed, and was retried
    ensures forall j :: 0 <= j < calls - 1 ==> Classify(transport(j), parse, errorOf).Failed?
    // a result is the decoded body of the first attempt that succeeded
    ensures out.Returned? ==> Classify(transport(calls - 1), parse, errorOf) == Success(out.data)
    // an error is surfaced only once every attempt is used, and it is the last attempt's
    ensures out.Thrown? ==> calls == Planned(attempts, cfg.attempts) &&
                            Classify(transport(calls - 1), parse, errorOf) == Failed(out.failure)
    // when every planned attempt fails, the transport is called exactly that often
    ensures (forall j :: 0 <= j < Planned(attempts, cfg.attempts) ==> Classify(transport(j), parse, errorOf).Failed?) ==>
              calls == if Planned(attempts, cfg.attempts) <= 0 then 0 else Planned(attempts, cfg.attempts)
    // one wait follows each failed attempt except the last, growing by the backoff formula
    ensures calls >= 1 ==> |waits| == calls - 1
    ensures forall j :: 0 <= j < |waits| ==> waits[j] == Backoff(cfg.baseDelayMs, cfg.maxDelayMs, j)
  {
    var n := if attempts.Some? then attempts.value else cfg.attempts;
    var lastErr: Option<Failure> := None;
    out, calls, waits := Undefined, 0, [];
    var i: nat := 0;
    while i < n
      invariant i == 0 || i < n
      invariant calls == i && |waits| == i
      invariant forall j :: 0 <= j < i ==> Classify(transport(j), parse, errorOf).Failed?
      invariant forall j :: 0 <= j < i ==> waits[j] == Backoff(cfg.baseDelayMs, cfg.maxDelayMs, j)
      invariant out.Undefined?
    {
      calls := calls + 1;
      var raised: Raised;
      match transport(i) {
        case NetworkError(m) =>
          raised := Raise(Transport(m));
        case Aborted =>
          raised := AbortError;
        case Response(ok, status, body) =>
          var data := Decode(body, parse);
          if data.None? {
            raised := Raise(InvalidJson);
          } else if !ok {
            var err := RequestFailed(ErrorMessage(data.value, errorOf), status);
            if status >= 500 && i < n - 1 {
              // a 5xx with attempts left is retried from inside the try block
              lastErr := Some(err);
              waits := waits + [Backoff(cfg.baseDelayMs, cfg.maxDelayMs, i)];
              i := i + 1;
              continue;
            }
            raised := Raise(err);
          } else {
            out := Returned(data.value);
            return;
          }
      }
      // the catch block: an abort becomes a timeout, and every error is retried
      var err := if raised.AbortError? then TimedOut else raised.failure;
      lastErr := Some(err);
      if i < n - 1 {
        waits := waits + [Backoff(cfg.baseDelayMs, cfg.maxDelayMs, i)];
        i := i + 1;
        continue;
      }
      out := Thrown(lastErr.value);
      return;
    }
  }

  /** A 500 answer and then an ok one, with two attempts: the second answer
      is the result, after one wait of the base delay. */
  method ServerErrorThenSuccess(cfg: Config)
    modifies cfg
  {
    cfg.SetFetchConfig(Partial(Some(2), Some(10), Some(100), Some(1000)));
    var transport := (i: nat) =>
      if i == 0 then Response(false, 500, "{\"error\":\"Server error\"}")
      else Response(true, 200, "{\"success\":true}");
    var parse := (s: string) => Some(s);
    var errorOf := (s: string) => if s == "{\"error\":\"Server error\"}" then Some("Server error") else None;
    var out, calls, waits := Fetch(cfg, None, transport, parse, errorOf);
    assert Classify(transport(0), parse, errorOf).Failed?;
    assert out == Returned(Value("{\"success\":true}"));
    assert calls == 2 && waits == [10];
  }

  /** A transport that always fails, with three attempts: three calls, waits
      of 10 and 20 ms, and the last network error surfaced. */
  method NetworkAlwaysFails(cfg: Config)
    modifies cfg
  {
    cfg.SetFetchConfig(Partial(Some(3), Some(10), Some(100), Some(1000)));
    var transport := (i: nat) => NetworkError("Network error");
    var parse := (s: string) => Some(s);
    var errorOf := (s: string) => None;
    var out, calls, waits := Fetch(cfg, None, transport, parse, errorOf);
    assert out == Thrown(Transport("Network error")) && Message(out.failure) == "Network error";
    assert calls == 3 && |waits| == 2;
    assert waits[0] == Backoff(10, 100, 0) == 10;
    assert waits[1] == Backoff(10, 100, 1) == 20;
  }

  /** One attempt whose timer fires before any response: the caller sees
      "Request timed out", and there is no wait. */
  method AbortSurfacesAsTimeout(cfg: Config)
    modifies cfg
  {
    cfg.SetFetchConfig(Partial(Some(1), None, None, Some(50)));
    var transport := (i: nat) => Aborted;
    var parse := (s: string) => Some(s);
    var errorOf := (s: string) => None;
    var out, calls, waits := Fetch(cfg, None, transport, parse, errorOf);
    assert out == Thrown(TimedOut) && Message(out.failure) == "Request timed out";
    assert calls == 1 && waits == [];
  }
}
