/** The loop as its messages and guards were evidently meant to work: each
    rejection of an answer raises its own exception, a status message and the
    cursor are recorded once the bot has delivered it, and an error is
    compared with the previous one by value. */
module Intended {
  import opened Py
  import opened Homework
  import Poller

  /** `APIHTTPRequestError` with the cause of the failed request. */
  function RequestFailed(cause: string): Fault
  {
    Fault(APIHTTPRequestError, "Ошибка запроса к API:" + cause)
  }

  /** The bare `Exception` naming the status code the API answered with. */
  function Unavailable(statusCode: int): Fault
  {
    Fault(PlainException, "Код ответа API: " + IntText(statusCode))
  }

  /** The `ValueError` naming the error key found in the answer and its value. */
  function ErrorReported(key: string, value: Json): Fault
  {
    Fault(ValueError, "Kлюч: " + key + ". Значение ключа: " + Text(value))
  }

  /** The `for key in keys` loop with the messages built as meant. */
  function IntendedRejectErrorKeys(keys: seq<string>, answer: Json): (r: Result<Json>)
    ensures r.Ok? <==> RejectErrorKeys(keys, answer).Ok?
    ensures r.Ok? ==> r.value == answer
    ensures r.Err? && answer.JObject? ==>
      exists i :: 0 <= i < |keys| && HasKey(answer.fields, keys[i])
        && r.error == ErrorReported(keys[i], Lookup(answer.fields, keys[i]).value)
        && (forall j :: 0 <= j < i ==> !HasKey(answer.fields, keys[j]))
    decreases |keys|
  {
    if keys == [] then Ok(answer)
    else match Contains(keys[0], answer)
      case Err(f) => Err(f)
      case Ok(found) =>
        if found then
          (if answer.JObject? then Err(ErrorReported(keys[0], GetOr(answer.fields, keys[0], JNull)))
           else Err(NoGet(answer)))
        else
          var r := IntendedRejectErrorKeys(keys[1..], answer);
          assert forall i :: 1 <= i < |keys| ==> keys[i] == keys[1..][i - 1];
          r
  }

  /** `get_api_answer` as meant: the same decisions as the code, each
      rejection with its own exception. */
  function IntendedGetApiAnswer(fetched: FetchOutcome): (r: Result<Json>)
    ensures r.Ok? <==> GetApiAnswer(fetched).Ok?
    ensures r.Ok? ==> r == GetApiAnswer(fetched)
    ensures fetched.TransportFailure? ==> r == Err(RequestFailed(fetched.cause))
    ensures fetched.Response? && fetched.statusCode != HttpOk ==> r == Err(Unavailable(fetched.statusCode))
  {
    match fetched
    case TransportFailure(cause) => Err(RequestFailed(cause))
    case Response(statusCode, body) =>
      if statusCode != HttpOk then Err(Unavailable(statusCode))
      else match body
        case Malformed(reason) => Err(Fault(JSONDecodeError, reason))
        case Parsed(answer) => IntendedRejectErrorKeys(ErrorKeys, answer)
  }

  /** As meant, the diagnostic of a failed request or of an unexpected status
      code says which of the two happened and which code came back. */
  lemma IntendedRejectionsDistinct(a: FetchOutcome, b: FetchOutcome)
    requires a.TransportFailure? || a.statusCode != HttpOk
    requires b.TransportFailure? || b.statusCode != HttpOk
    requires IntendedGetApiAnswer(a) == IntendedGetApiAnswer(b)
    ensures a.TransportFailure? <==> b.TransportFailure?
    ensures a.Response? ==> a.statusCode == b.statusCode
  {
    if a.Response? && b.Response? {
      var p := "Код ответа API: ";
      var ta, tb := IntText(a.statusCode), IntText(b.statusCode);
      assert p + ta == p + tb;
      assert ta == (p + ta)[|p|..] && tb == (p + tb)[|p|..];
      IntTextInjective(a.statusCode, b.statusCode);
    }
  }

  /** What the `try` block decides: an exception, nothing to report, or a
      status message with the answer it was read from. */
  type Outcome = Result<Option<(string, seq<(string, Json)>)>>

  /** What the loop remembers between cycles, errors kept as values. */
  datatype State = State(timestamp: Json, previousMessage: string, previousError: Option<Fault>)

  /** The `try` block with the intended exceptions; a status message comes
      with the answer it was read from, for its `current_date`. */
  function IntendedAttempt(fetched: FetchOutcome): (r: Outcome)
    ensures r.Ok? && r.value.Some? ==> StatusPrefix <= r.value.value.0
  {
    match IntendedGetApiAnswer(fetched)
    case Err(f) => Err(f)
    case Ok(answer) =>
      match CheckResponse(answer)
      case Err(f) => Err(f)
      case Ok(homeworks) =>
        if homeworks == [] then Ok(None)
        else match ParseStatus(homeworks[0])
          case Err(f) => Err(f)
          case Ok(message) => Ok(Some((message, answer.fields)))
  }

  /** The intended try block decides the same as the code's, except for the
      exceptions raised when `get_api_answer` rejects the answer. */
  lemma IntendedAttemptAgrees(fetched: FetchOutcome)
    ensures IntendedAttempt(fetched).Ok? <==> Attempt(fetched).Ok?
    ensures IntendedAttempt(fetched).Ok? ==>
      (IntendedAttempt(fetched).value.None? <==> Attempt(fetched).value.None?)
    ensures IntendedAttempt(fetched).Ok? && IntendedAttempt(fetched).value.Some? ==>
      Attempt(fetched).value.value == IntendedAttempt(fetched).value.value.0
  {
  }

  /** One cycle as meant, given what the `try` block decided. `delivered`
      is whether the bot delivered the status message; the message and the
      answer's `current_date` are recorded only then, and an error is sent
      only when it differs from the last one. */
  function IntendedCycle(s: State, attempt: Outcome, delivered: bool): (r: (State, seq<string>))
    ensures |r.1| <= 1
    ensures r.0.previousMessage != s.previousMessage ==> delivered && r.1 == [r.0.previousMessage]
    ensures r.0.timestamp != s.timestamp ==> delivered && r.1 == [r.0.previousMessage]
  {
    match attempt
    case Err(f) =>
      if s.previousError == Some(f) then (s, [])
      else (s.(previousError := Some(f)), [Poller.ErrorGlobal(f)])
    case Ok(None) => (s, [])
    case Ok(Some((message, answer))) =>
      if message == s.previousMessage then (s, [])
      else if delivered then
        (s.(previousMessage := message, timestamp := GetOr(answer, "current_date", s.timestamp)), [message])
      else (s, [message])
  }

  /** What the intended `try` block decides for the i-th request with
      `from_date` = `from`, when `request(i, from)` is what the API answers. */
  function AttemptsFrom(request: (nat, Json) -> FetchOutcome): (nat, Json) -> Outcome
  {
    (i: nat, from: Json) => IntendedAttempt(request(i, from))
  }

  /** `cycles` intended passes from state `s`; `attempts(i, from)` is what
      the i-th pass decides when the cursor is `from`, `delivered(i)`
      whether its message arrived. */
  function IntendedRun(s: State, attempts: (nat, Json) -> Outcome, delivered: nat -> bool, cycles: nat)
    : (State, seq<string>)
    decreases cycles
  {
    if cycles == 0 then (s, [])
    else
      var (before, sent) := IntendedRun(s, attempts, delivered, cycles - 1);
      var (after, more) := IntendedCycle(before, attempts(cycles - 1, before.timestamp), delivered(cycles - 1));
      (after, sent + more)
  }

  /** As meant, a status that stays the same is sent once, when every
      delivery succeeds, whatever `from_date` the cursor moves to. */
  lemma {:induction false} IntendedStatusSentOnce(
    s: State, attempts: (nat, Json) -> Outcome, delivered: nat -> bool, cycles: nat, message: string)
    requires cycles >= 1 && message != s.previousMessage
    requires forall i: nat, from: Json :: i < cycles ==>
      attempts(i, from).Ok? && attempts(i, from).value.Some? && attempts(i, from).value.value.0 == message
    requires forall i: nat :: i < cycles ==> delivered(i)
    ensures IntendedRun(s, attempts, delivered, cycles).1 == [message]
    ensures IntendedRun(s, attempts, delivered, cycles).0.previousMessage == message
    decreases cycles
  {
    if cycles > 1 {
      IntendedStatusSentOnce(s, attempts, delivered, cycles - 1, message);
      var before := IntendedRun(s, attempts, delivered, cycles - 1).0;
      assert attempts(cycles - 1, before.timestamp).value.value.0 == message;
    } else {
      assert attempts(0, s.timestamp).value.value.0 == message;
    }
  }

  /** As meant, once a status has been delivered the cursor moves to the
      answer's `current_date`; an undelivered one leaves the state as it was
      and is sent again on the next cycle that still reports it. */
  lemma IntendedCursorFollowsDelivery(s: State, message: string, answer: seq<(string, Json)>, delivered: bool)
    requires message != s.previousMessage
    ensures var (after, sent) := IntendedCycle(s, Ok(Some((message, answer))), delivered);
      && sent == [message]
      && (delivered ==> after.timestamp == GetOr(answer, "current_date", s.timestamp) && after.previousMessage == message)
      && (!delivered ==> after == s && IntendedCycle(after, Ok(Some((message, answer))), true).1 == [message])
  {
  }

  /** As meant, an error that keeps recurring is reported once. */
  lemma {:induction false} IntendedErrorReportedOnce(
    s: State, attempts: (nat, Json) -> Outcome, delivered: nat -> bool, cycles: nat, fault: Fault)
    requires cycles >= 1 && s.previousError != Some(fault)
    requires forall i: nat, from: Json :: i < cycles ==> attempts(i, from) == Err(fault)
    ensures IntendedRun(s, attempts, delivered, cycles).1 == [Poller.ErrorGlobal(fault)]
    ensures IntendedRun(s, attempts, delivered, cycles).0 == s.(previousError := Some(fault))
    decreases cycles
  {
    if cycles > 1 {
      IntendedErrorReportedOnce(s, attempts, delivered, cycles - 1, fault);
      var before := IntendedRun(s, attempts, delivered, cycles - 1).0;
      assert attempts(cycles - 1, before.timestamp) == Err(fault);
    } else {
      assert attempts(0, s.timestamp) == Err(fault);
    }
  }

  /** As meant, a network that keeps failing is reported once, with the
      cause of the failure, over any number of cycles. */
  lemma NetworkOutageReportedOnce(
    s: State, request: (nat, Json) -> FetchOutcome, delivered: nat -> bool, cycles: nat, cause: string)
    requires cycles >= 1 && s.previousError != Some(RequestFailed(cause))
    requires forall i: nat, from: Json :: i < cycles ==> request(i, from) == TransportFailure(cause)
    ensures IntendedRun(s, AttemptsFrom(request), delivered, cycles).1
      == [Poller.ErrorGlobal(RequestFailed(cause))]
  {
    var attempts := AttemptsFrom(request);
    forall i: nat, from: Json | i < cycles
      ensures attempts(i, from) == Err(RequestFailed(cause))
    {
      assert request(i, from) == TransportFailure(cause);
    }
    IntendedErrorReportedOnce(s, attempts, delivered, cycles, RequestFailed(cause));
  }
}
