// src/reepay-client/reepay-client.service.ts: one logical request, sent up to three times when it is a read.
module ReepayClient {
  import opened Wrappers
  import opened Text
  import opened Json

  const SAFE_READ_RETRIES := 2

  datatype Method = Get | Post | Put | Patch | Delete

  /** What comes back from one attempt: an HTTP response, or an error thrown on the way. */
  datatype Answer =
    | Response(status: nat, payload: Option<Value>)
    | NetworkError(abort: bool)

  /** A ReepayClientException: fields copied from the error body may hold any JSON. */
  datatype Exception = Exception(
    code: Value,
    message: Value,
    details: Option<Value>,
    requestId: string,
    reepayRequestId: Option<Value>,
    status: nat)

  /** How `send` ends: with data, with an exception of its own, or with an error that may pass. */
  datatype SendOutcome =
    | Data(value: Value)
    | Refused(exception: Exception)
    | Transient(abort: bool)

  datatype Result = Returned(value: Value) | Thrown(exception: Exception)

  datatype Sent = Sent(verb: Method, path: string, requestId: string, attempt: nat)

  /** `value ?? default` on JSON: null counts as absent. */
  function NotNull(value: Option<Value>): Option<Value> {
    if value == Some(Null) then None else value
  }

  predicate ResponseOk(status: nat) {
    200 <= status <= 299
  }

  function UnwrapData(payload: Option<Value>, requestId: string): SendOutcome {
    match Property(payload, "data")
    case Some(data) => Data(data)
    case None =>
      Refused(Exception(Str("REEPAY_INVALID_RESPONSE"), Str("Reepay returned an unexpected success response"),
                        None, requestId, None, 502))
  }

  function ToReepayException(status: nat, requestId: string, payload: Option<Value>): Exception {
    var error := NotNull(Property(payload, "error"));
    Exception(NotNull(Property(error, "code")).GetOr(Str("REEPAY_HTTP_" + Decimal(status))),
              NotNull(Property(error, "message")).GetOr(Str("Reepay request failed")),
              Property(error, "details"), requestId, Property(error, "requestId"),
              if status >= 500 then 502 else status)
  }

  function ToTimeoutException(path: string, requestId: string, abort: bool): Exception {
    Exception(Str(if abort then "REEPAY_TIMEOUT" else "REEPAY_NETWORK_ERROR"),
              Str(if abort then "Reepay request timed out" else "Unable to reach Reepay"),
              Some(Obj(map["path" := Str(path)])), requestId, None, 502)
  }

  function Classify(answer: Answer, requestId: string): SendOutcome {
    match answer
    case Response(status, payload) =>
      if ResponseOk(status) then UnwrapData(payload, requestId)
      else Refused(ToReepayException(status, requestId, payload))
    case NetworkError(abort) => Transient(abort)
  }

  function Attempts(verb: Method): nat {
    if verb == Get then SAFE_READ_RETRIES + 1 else 1
  }

  /** The attempts numbered 1 to k, all for one logical request. */
  function Sends(verb: Method, path: string, requestId: string, k: nat): seq<Sent> {
    seq(k, i requires 0 <= i => Sent(verb, path, requestId, i + 1))
  }

  /** The result that settles the request when attempt k is the last one made. */
  function SettledBy(outcome: SendOutcome, path: string, requestId: string): Result {
    match outcome
    case Data(value) => Returned(value)
    case Refused(exception) => Thrown(exception)
    case Transient(abort) => Thrown(ToTimeoutException(path, requestId, abort))
  }

  /**
   * Attempt k is the first decisive one among the first n, or there is none and k is n. `answers(i)` is what
   * comes back from attempt i.
   */
  ghost predicate Decides(answers: nat -> Answer, requestId: string, n: nat, k: nat) {
    && 1 <= k <= n
    && (forall i | 1 <= i < k :: Classify(answers(i), requestId).Transient?)
    && (k < n ==> !Classify(answers(k), requestId).Transient?)
  }

  /** There is exactly one such attempt. */
  lemma DecidesOnce(answers: nat -> Answer, requestId: string, n: nat, k: nat, m: nat)
    requires Decides(answers, requestId, n, k) && Decides(answers, requestId, n, m)
    ensures k == m
  {
  }

  /** Only errors thrown on the way are retried; every response, whatever its status and body, is decisive. */
  lemma ResponsesAreDecisive(answer: Answer, requestId: string)
    ensures Classify(answer, requestId).Transient? <==> answer.NetworkError?
    ensures Classify(answer, requestId).Data? <==>
        answer.Response? && ResponseOk(answer.status) && Property(answer.payload, "data").Some?
    ensures Classify(answer, requestId).Refused? ==> Classify(answer, requestId).exception.requestId == requestId
    ensures answer.Response? && !ResponseOk(answer.status) && answer.status >= 500 ==>
        Classify(answer, requestId).Refused? && Classify(answer, requestId).exception.status == 502
  {
    if answer.Response? && ResponseOk(answer.status) {
      assert Classify(answer, requestId) == UnwrapData(answer.payload, requestId);
    }
  }

  /**
   * What the caller sees follows from the deciding attempt alone: every attempt before it ended in an error on
   * the way; data is returned if and only if it is a 2xx response whose body has a data property; an error on
   * the way surfaces only when all n attempts ended in one, classified by the last; and no exception has a
   * status above 502.
   */
  lemma SettledByDecidingAttempt(answers: nat -> Answer, path: string, requestId: string, n: nat, k: nat)
    requires Decides(answers, requestId, n, k)
    ensures forall i | 1 <= i < k :: answers(i).NetworkError?
    ensures var r, last := SettledBy(Classify(answers(k), requestId), path, requestId), answers(k);
      && (r.Returned? <==> last.Response? && ResponseOk(last.status) && Property(last.payload, "data").Some?)
      && (r.Returned? ==> Property(last.payload, "data") == Some(r.value))
      && (last.NetworkError? ==> k == n && r.Thrown? && r.exception.status == 502)
      && (last.NetworkError? ==>
            r.exception.code == Str(if last.abort then "REEPAY_TIMEOUT" else "REEPAY_NETWORK_ERROR"))
      && (r.Thrown? ==> r.exception.requestId == requestId && r.exception.status <= 502)
  {
    ResponsesAreDecisive(answers(k), requestId);
    forall i | 1 <= i < k
      ensures answers(i).NetworkError?
    {
      ResponsesAreDecisive(answers(i), requestId);
    }
  }

  /** `error[key] ?? default` of an error body. */
  predicate Picks(picked: Value, body: Option<Value>, key: string, default: string) {
    var found := Property(Property(body, "error"), key);
    picked == if found.Some? && found.value != Null then found.value else Str(default)
  }

  /**
   * Every response is answered by its own class. A 2xx with a `data` property is data. A 2xx without is a 502.
   * Any other status is an exception that keeps a status below 500 and takes code and message from the body's
   * error, or else from the status.
   */
  lemma ResponseClasses(status: nat, body: Option<Value>, requestId: string)
    ensures var o := Classify(Response(status, body), requestId);
      if 200 <= status < 300 then
        if Property(body, "data").Some? then o == Data(Property(body, "data").value)
        else o.Refused? && o.exception.code == Str("REEPAY_INVALID_RESPONSE") && o.exception.status == 502
             && o.exception.requestId == requestId
      else
        && o.Refused? && o.exception.requestId == requestId
        && o.exception.status == (if status < 500 then status else 502)
        && Picks(o.exception.code, body, "code", "REEPAY_HTTP_" + Decimal(status))
        && Picks(o.exception.message, body, "message", "Reepay request failed")
        && o.exception.details == Property(Property(body, "error"), "details")
        && o.exception.reepayRequestId == Property(Property(body, "error"), "requestId")
  {
    hide Decimal;
  }

  /** An error on the way that is not retried any more becomes a 502 that names the path. */
  lemma ErrorClasses(abort: bool, path: string, requestId: string)
    ensures var r := SettledBy(Classify(NetworkError(abort), requestId), path, requestId);
      && r.Thrown? && r.exception.status == 502 && r.exception.requestId == requestId
      && r.exception.code == Str(if abort then "REEPAY_TIMEOUT" else "REEPAY_NETWORK_ERROR")
      && r.exception.message == Str(if abort then "Reepay request timed out" else "Unable to reach Reepay")
      && r.exception.details == Some(Obj(map["path" := Str(path)]))
  {
  }

  class ReepayClientService {
    var sent: seq<Sent>

    constructor ()
      ensures sent == []
    {
      sent := [];
    }

    method Send(verb: Method, path: string, requestId: string, attempt: nat, answer: Answer)
      returns (outcome: SendOutcome)
      modifies this
      ensures outcome == Classify(answer, requestId)
      ensures sent == old(sent) + [Sent(verb, path, requestId, attempt)]
    {
      sent := sent + [Sent(verb, path, requestId, attempt)];
      if answer.NetworkError? {
        return Transient(answer.abort);
      }
      if !ResponseOk(answer.status) {
        return Refused(ToReepayException(answer.status, requestId, answer.payload));
      }
      outcome := UnwrapData(answer.payload, requestId);
    }

    /** `freshId` is the UUID drawn when the caller gives no request id. */
    method Request(verb: Method, path: string, givenId: Option<string>, freshId: string, answers: nat -> Answer)
      returns (result: Result, ghost k: nat)
      modifies this
      ensures Decides(answers, givenId.GetOr(freshId), if verb == Get then 3 else 1, k)
      ensures result == SettledBy(Classify(answers(k), givenId.GetOr(freshId)), path, givenId.GetOr(freshId))
      ensures |sent| == |old(sent)| + k && old(sent) <= sent
      ensures forall i | |old(sent)| <= i < |sent| ::
          sent[i] == Sent(verb, path, givenId.GetOr(freshId), i - |old(sent)| + 1)
      ensures verb != Get ==> |sent| == |old(sent)| + 1
    {
      var requestId := givenId.GetOr(freshId);
      var attempts := Attempts(verb);
      var attempt := 1;
      while attempt <= attempts
        invariant 1 <= attempt <= attempts
        invariant forall i | 1 <= i < attempt :: Classify(answers(i), requestId).Transient?
        invariant sent == old(sent) + Sends(verb, path, requestId, attempt - 1)
      {
        var outcome := Send(verb, path, requestId, attempt, answers(attempt));
        assert Sends(verb, path, requestId, attempt)
            == Sends(verb, path, requestId, attempt - 1) + [Sent(verb, path, requestId, attempt)];
        k := attempt;
        match outcome {
          case Data(value) => return Returned(value), k;
          case Refused(exception) => return Thrown(exception), k;
          case Transient(abort) =>
            if attempt >= attempts {
              return Thrown(ToTimeoutException(path, requestId, abort)), k;
            }
        }
        attempt := attempt + 1;
      }
      // the statement after the loop is never reached
      assert false;
    }
  }
}
