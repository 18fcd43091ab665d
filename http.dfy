/**
 * The `request` helper that both service files define (identically, apart from log text):
 * a response with a 2xx status (RFC 9110, section 15.3, "Successful 2xx") yields its body,
 * any other status rejects with '请求失败: <status>', and a transport failure is re-thrown.
 * Also the `{success, data, message}` envelope used by the mutation endpoints.
 */
module Http {
  import opened Wrappers
  import opened Text

  /** What the transport delivers: a status and a decoded body, or a rejection. */
  datatype Response<B> = Received(statusCode: int, body: B) | TransportFailure(thrown: Thrown)

  datatype Envelope<T> = Envelope(success: bool, data: T, message: Option<string>)

  predicate IsSuccessful(statusCode: int)
  {
    200 <= statusCode < 300
  }

  const FailurePrefix: string := "请求失败: "

  function FailureMessage(statusCode: int): string
  {
    FailurePrefix + IntToDecimal(statusCode)
  }

  function Request<B>(r: Response<B>): (res: Result<B>)
    ensures res.Ok? <==> r.Received? && IsSuccessful(r.statusCode)
    ensures res.Ok? ==> res.value == r.body
    ensures r.Received? && !IsSuccessful(r.statusCode) ==> res == Err(Error(FailureMessage(r.statusCode)))
    ensures r.TransportFailure? ==> res == Err(r.thrown)
  {
    match r
    case TransportFailure(t) => Err(t)
    case Received(status, body) =>
      if IsSuccessful(status) then Ok(body) else Err(Error(FailureMessage(status)))
  }

  /** Reads the status code back out of a failure message. */
  function StatusOfFailure(message: string): Option<int>
  {
    if |message| >= |FailurePrefix| && message[..|FailurePrefix|] == FailurePrefix
    then ParseInt(message[|FailurePrefix|..])
    else None
  }

  /** The failure message of a non-2xx response names its status exactly. */
  lemma FailureMessageNamesStatus(statusCode: int)
    ensures StatusOfFailure(FailureMessage(statusCode)) == Some(statusCode)
  {
    var m := FailureMessage(statusCode);
    assert m[..|FailurePrefix|] == FailurePrefix;
    assert m[|FailurePrefix|..] == IntToDecimal(statusCode);
    IntRoundTrip(statusCode);
  }

  /** Two rejected requests carry the same message only if their statuses were equal. */
  lemma FailureMessagesDistinguishStatus(a: int, b: int)
    ensures FailureMessage(a) == FailureMessage(b) <==> a == b
  {
    FailureMessageNamesStatus(a);
    FailureMessageNamesStatus(b);
  }

  /** `if (response.success) return response.data; else throw new Error(response.message || fallback)` */
  function Unwrap<T>(env: Envelope<T>, fallback: string): (res: Result<T>)
    ensures res.Ok? <==> env.success
    ensures res.Ok? ==> res.value == env.data
    ensures res.Err? ==> res.thrown.Error?
    ensures res.Err? && IsTruthy(env.message) ==> res.thrown.message == env.message.value
    ensures res.Err? && !IsTruthy(env.message) ==> res.thrown.message == fallback
  {
    if env.success then Ok(env.data) else Err(Error(TruthyOr(env.message, fallback)))
  }

  /** A request to an enveloped endpoint: transport and status first, then the envelope. */
  function RequestEnvelope<T>(r: Response<Envelope<T>>, fallback: string): (res: Result<T>)
    ensures res.Ok? <==> r.Received? && IsSuccessful(r.statusCode) && r.body.success
    ensures res.Ok? ==> res.value == r.body.data
    ensures r.Received? && !IsSuccessful(r.statusCode) ==> res == Err(Error(FailureMessage(r.statusCode)))
    ensures r.Received? && IsSuccessful(r.statusCode) && !r.body.success ==>
      res == Err(Error(TruthyOr(r.body.message, fallback)))
    ensures r.TransportFailure? ==> res == Err(r.thrown)
  {
    match Request(r)
    case Err(t) => Err(t)
    case Ok(env) => Unwrap(env, fallback)
  }
}
