/** The bot's main loop: one cycle fetches the statuses, checks and formats
    them, and hands a message to the Telegram bot when the status changed or
    when something failed. */
module Poller {
  import opened Py
  import opened Homework

  /** `ERROR_GLOBAL` filled in with `str(error)`. */
  function ErrorGlobal(f: Fault): string
  {
    "Ошибка в работе бота: " + ExceptionText(f)
  }

  /** A raised exception. Python compares exception objects by identity, and
      every `raise` builds a new one. */
  class ExceptionObject {
    const fault: Fault

    constructor (fault: Fault)
      ensures this.fault == fault
    {
      this.fault := fault;
    }
  }

  /** The messages one cycle hands to the bot, given what the `try` block
      decided and the message sent last. */
  function CycleNotices(attempt: Result<Option<string>>, previousMessage: string): (sent: seq<string>)
    ensures |sent| <= 1
    ensures attempt.Err? ==> sent == [ErrorGlobal(attempt.error)]
    ensures attempt == Ok(None) ==> sent == []
    ensures attempt.Ok? && attempt.value.Some? ==>
      (sent == [] <==> attempt.value.value == previousMessage)
    ensures attempt.Ok? && attempt.value.Some? && attempt.value.value != previousMessage ==>
      sent == [attempt.value.value]
  {
    match attempt
    case Err(f) => [ErrorGlobal(f)]
    case Ok(None) => []
    case Ok(Some(message)) =>
      if message == previousMessage then []
      else [message]
  }

  /** The state `main` keeps between cycles, and the messages the bot was given. */
  class MainLoop {
    /** `from_date` of the next request */
    var timestamp: Json
    /** the last status message the loop recorded as delivered */
    var previousMessage: string
    /** the last exception reported; null stands for the initial empty string */
    var previousError: ExceptionObject?
    /** every message handed to `bot.send_message`, in order */
    var sent: seq<string>

    constructor (now: int)
      ensures timestamp == JInt(now) && previousMessage == ""
      ensures previousError == null && sent == []
    {
      timestamp := JInt(now);
      previousMessage := "";
      previousError := null;
      sent := [];
    }

    /** `send_message`: hands the message to the bot; a Telegram error is
        logged and swallowed. It returns nothing, that is None. */
    method SendMessage(message: string) returns (r: Json)
      modifies this`sent
      ensures sent == old(sent) + [message]
      ensures r == JNull
    {
      sent := sent + [message];
      r := JNull;
    }

    /** The `try` block of one pass: fetch, check, parse and send a changed
        status. Returns the exception it raised, if any. */
    method TryBlock(request: Json -> FetchOutcome) returns (fault: Option<Fault>)
      modifies this
      ensures timestamp == old(timestamp) && previousMessage == old(previousMessage)
      ensures previousError == old(previousError)
      ensures fault.Some? <==> Attempt(request(old(timestamp))).Err?
      ensures fault.Some? ==> fault.value == Attempt(request(old(timestamp))).error && sent == old(sent)
      ensures fault.None? ==> sent == old(sent) + CycleNotices(Attempt(request(old(timestamp))), old(previousMessage))
    {
      ghost var outcome := Attempt(request(timestamp));
      fault := None;
      var answer := GetApiAnswer(request(timestamp));
      if answer.Err? {
        fault := Some(answer.error);
        assert outcome == Err(answer.error);
        return;
      }
      var homeworks := CheckResponse(answer.value);
      if homeworks.Err? {
        fault := Some(homeworks.error);
        assert outcome == Err(homeworks.error);
        return;
      }
      if homeworks.value == [] {
        assert outcome == Ok(None);
        return;
      }
      var message := ParseStatus(homeworks.value[0]);
      if message.Err? {
        fault := Some(message.error);
        assert outcome == Err(message.error);
        return;
      }
      assert outcome == Ok(Some(message.value));
      if previousMessage != message.value {
        var text, fields := message.value, answer.value.fields;
        var delivered := SendMessage(text);
        // `if send_message(...)` tests None, so nothing is recorded
        var recorded := Truthy(delivered);
        previousMessage := if recorded then text else previousMessage;
        timestamp := if recorded then GetOr(fields, "current_date", timestamp) else timestamp;
      }
    }

    /** The `except` block: the raised exception is a new object, so it
        always differs from `previous_error`; it is reported and remembered. */
    method ExceptBlock(fault: Fault)
      modifies this
      ensures timestamp == old(timestamp) && previousMessage == old(previousMessage)
      ensures sent == old(sent) + [ErrorGlobal(fault)]
      ensures previousError != null && fresh(previousError) && previousError.fault == fault
    {
      var error := new ExceptionObject(fault);
      if previousError != error {
        var ignored := SendMessage(ErrorGlobal(error.fault));
        previousError := error;
      }
    }

    /** One pass of `while True`, with `request(from_date)` standing for what
        `requests.get` returns: the `try` block, then the `except` block. */
    method Cycle(request: Json -> FetchOutcome)
      modifies this
      ensures timestamp == old(timestamp) && previousMessage == old(previousMessage)
      ensures sent == old(sent) + CycleNotices(Attempt(request(old(timestamp))), old(previousMessage))
      ensures Attempt(request(old(timestamp))).Err? ==>
        previousError != null && fresh(previousError)
        && previousError.fault == Attempt(request(old(timestamp))).error
      ensures Attempt(request(old(timestamp))).Ok? ==> previousError == old(previousError)
    {
      var fault := TryBlock(request);
      if fault.Some? {
        ExceptBlock(fault.value);
      }
    }
  }

  /** The messages `cycles` passes of the loop hand to the bot when the
      cursor stays at `now` and no message is ever recorded as delivered. */
  function SentAsWritten(outcomes: nat -> Result<Option<string>>, cycles: nat): seq<string>
    decreases cycles
  {
    if cycles == 0 then []
    else SentAsWritten(outcomes, cycles - 1) + CycleNotices(outcomes(cycles - 1), "")
  }

  /** What the `try` block decides on each cycle when the cursor stays at `now`. */
  function OutcomesFrom(request: (nat, Json) -> FetchOutcome, now: int): nat -> Result<Option<string>>
  {
    (i: nat) => Attempt(request(i, JInt(now)))
  }

  /** `main` with the endless loop cut after `cycles` passes. `request(i, from)`
      is what the API answers to the i-th request with `from_date` = `from`.
      Returns what the bot was given, or the exception `check_tokens` raised. */
  method Run(env: map<string, string>, now: int, request: (nat, Json) -> FetchOutcome, cycles: nat)
    returns (r: Result<seq<string>>)
    ensures CheckTokens(env).Err? ==> r == Err(CheckTokens(env).error)
    ensures CheckTokens(env).Ok? ==> r == Ok(SentAsWritten(OutcomesFrom(request, now), cycles))
  {
    var check := CheckTokens(env);
    if check.Err? {
      return Err(check.error);
    }
    var sent := PollCycles(now, request, cycles);
    return Ok(sent);
  }

  /** The loop of `main` from `timestamp = now` on, cut after `cycles` passes;
      returns what the bot was given. */
  method PollCycles(now: int, request: (nat, Json) -> FetchOutcome, cycles: nat)
    returns (sent: seq<string>)
    ensures sent == SentAsWritten(OutcomesFrom(request, now), cycles)
  {
    var loop := new MainLoop(now);
    var i := 0;
    while i < cycles
      invariant 0 <= i <= cycles
      invariant loop.timestamp == JInt(now) && loop.previousMessage == ""
      invariant loop.sent == SentAsWritten(OutcomesFrom(request, now), i)
    {
      var k := i;
      var poll: Json -> FetchOutcome := from => request(k, from);
      ghost var notices := CycleNotices(Attempt(request(i, JInt(now))), "");
      assert SentAsWritten(OutcomesFrom(request, now), i + 1) == loop.sent + notices;
      assert poll(JInt(now)) == request(i, JInt(now));
      loop.Cycle(poll);
      i := i + 1;
    }
    sent := loop.sent;
  }

  /** `n` copies of `x`. */
  function Repeat<T>(x: T, n: nat): (r: seq<T>)
    ensures |r| == n && forall i :: 0 <= i < n ==> r[i] == x
  {
    if n == 0 then [] else Repeat(x, n - 1) + [x]
  }

  /** As written, a status that stays the same is sent again on every cycle. */
  lemma {:induction false} StatusResentEveryCycle(
    outcomes: nat -> Result<Option<string>>, cycles: nat, message: string)
    requires StatusPrefix <= message
    requires forall i: nat :: i < cycles ==> outcomes(i) == Ok(Some(message))
    ensures SentAsWritten(outcomes, cycles) == Repeat(message, cycles)
    decreases cycles
  {
    if cycles > 0 {
      StatusResentEveryCycle(outcomes, cycles - 1, message);
      assert outcomes(cycles - 1) == Ok(Some(message));
      assert message != "";
    }
  }

  /** As written, an error that keeps recurring is reported on every cycle. */
  lemma {:induction false} ErrorResentEveryCycle(
    outcomes: nat -> Result<Option<string>>, cycles: nat, fault: Fault)
    requires forall i: nat :: i < cycles ==> outcomes(i) == Err(fault)
    ensures SentAsWritten(outcomes, cycles) == Repeat(ErrorGlobal(fault), cycles)
    decreases cycles
  {
    if cycles > 0 {
      ErrorResentEveryCycle(outcomes, cycles - 1, fault);
      assert outcomes(cycles - 1) == Err(fault);
    }
  }

  /** As written, cycles whose answers list no homework send nothing. */
  lemma {:induction false} QuietCyclesSendNothing(outcomes: nat -> Result<Option<string>>, cycles: nat)
    requires forall i: nat :: i < cycles ==> outcomes(i) == Ok(None)
    ensures SentAsWritten(outcomes, cycles) == []
    decreases cycles
  {
    if cycles > 0 {
      QuietCyclesSendNothing(outcomes, cycles - 1);
      assert outcomes(cycles - 1) == Ok(None);
    }
  }
}
