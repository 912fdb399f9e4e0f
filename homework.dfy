/** The checks and the formatting the bot applies to each answer of the
    homework-status API, and the start-up check of its configuration. */
module Homework {
  import opened Py

  /** `HTTPStatus.OK` */
  const HttpOk := 200

  /** Review status to the verdict text the bot sends. */
  const HomeworkVerdicts: map<string, string> := map[
    "approved" := "Работа проверена: ревьюеру всё понравилось. Ура!",
    "reviewing" := "Работа взята на проверку ревьюером.",
    "rejected" := "Работа проверена: у ревьюера есть замечания."
  ]

  /** The environment variables the bot needs, in the order they are checked. */
  const Tokens: seq<string> := ["PRACTICUM_TOKEN", "TELEGRAM_TOKEN", "TELEGRAM_CHAT_ID"]

  /** Keys whose presence in an answer means the API reported a problem. */
  const ErrorKeys: seq<string> := ["code", "error"]

  /** The text in front of the homework name in every status message. */
  const StatusPrefix := "Изменился статус проверки работы \""

  /** `STATUS_MESSAGE` filled in. */
  function StatusMessage(homeworkName: string, verdict: string): string
  {
    StatusPrefix + homeworkName + "\"." + verdict
  }

  /** `NO_KEY` filled in. */
  function NoKey(key: string): string
  {
    "Отсутствует ключ " + key
  }

  /** `NO_VARIABLE` filled in. */
  function NoVariable(token: string): string
  {
    "Отсутствует обязательная переменная окружения " + token
  }

  /** `UNEXPECTED_TYPE` filled in with `type(value)`. */
  function UnexpectedType(value: Json): string
  {
    "Получен неожиданный тип: <class '" + TypeName(value) + "'>"
  }

  /** `UNEXPECTED_STATUS` filled in. */
  function UnexpectedStatus(status: Json): string
  {
    "Неожиданный статус домашней работы:\"" + Text(status) + "\""
  }

  // ---------------------------------------------------------------------
  // check_tokens

  /** A variable is usable when `os.getenv` finds it and it is not empty. */
  predicate IsSet(env: map<string, string>, name: string)
  {
    name in env && env[name] != ""
  }

  /** `i` is the first position of `tokens` whose variable is not usable. */
  predicate FirstUnset(env: map<string, string>, tokens: seq<string>, i: int)
  {
    && 0 <= i < |tokens|
    && !IsSet(env, tokens[i])
    && forall j :: 0 <= j < i ==> IsSet(env, tokens[j])
  }

  /** The list comprehension of the tokens whose variable is not usable. */
  function Missed(env: map<string, string>, tokens: seq<string>): seq<string>
    decreases |tokens|
  {
    if tokens == [] then []
    else (if IsSet(env, tokens[0]) then [] else [tokens[0]]) + Missed(env, tokens[1..])
  }

  lemma {:induction false} MissedStartsAtFirstUnset(env: map<string, string>, tokens: seq<string>)
    ensures Missed(env, tokens) == [] <==> forall i :: 0 <= i < |tokens| ==> IsSet(env, tokens[i])
    ensures Missed(env, tokens) != [] ==>
      exists i :: FirstUnset(env, tokens, i) && Missed(env, tokens)[0] == tokens[i]
    decreases |tokens|
  {
    if tokens != [] {
      var rest := tokens[1..];
      MissedStartsAtFirstUnset(env, rest);
      assert forall i :: 1 <= i < |tokens| ==> tokens[i] == rest[i - 1];
      if IsSet(env, tokens[0]) {
        if Missed(env, rest) != [] {
          var k :| FirstUnset(env, rest, k) && Missed(env, rest)[0] == rest[k];
          assert FirstUnset(env, tokens, k + 1);
        }
      } else {
        assert FirstUnset(env, tokens, 0);
      }
    }
  }

  /** `check_tokens`: passes when every token is usable, otherwise raises
      ValueError naming the first unusable one in `Tokens` order. */
  function CheckTokens(env: map<string, string>): (r: Result<()>)
    ensures r.Ok? <==> forall i :: 0 <= i < |Tokens| ==> IsSet(env, Tokens[i])
    ensures r.Err? ==>
      exists i :: FirstUnset(env, Tokens, i) && r.error == Fault(ValueError, NoVariable(Tokens[i]))
  {
    var missed := Missed(env, Tokens);
    MissedStartsAtFirstUnset(env, Tokens);
    if missed == [] then Ok(()) else Err(Fault(ValueError, NoVariable(missed[0])))
  }

  // ---------------------------------------------------------------------
  // get_api_answer, after the request

  /** What the request gave: a failure of `requests.get` itself, or a response
      with its status code and its body as `response.json()` decodes it. */
  datatype Body = Parsed(json: Json) | Malformed(reason: string)
  datatype FetchOutcome = TransportFailure(cause: string) | Response(statusCode: int, body: Body)

  /** What `API_FAILED_RESPONSE.format(...)` and `API_FAILED_REQUEST.format(...)`
      raise: neither call passes the `ENDPOINT` field the templates name, so
      building the message raises KeyError('ENDPOINT') before any `raise`. */
  const EndpointMissing := Fault(KeyError, "ENDPOINT")

  /** The AttributeError raised by calling `.get` on a value that is not a dict. */
  function NoGet(value: Json): Fault
  {
    Fault(AttributeError, "'" + TypeName(value) + "' object has no attribute 'get'")
  }

  /** The `for key in keys` loop: rejects an answer in which one of `keys` is
      found. The call `api_response.get(key)` is evaluated before the message
      is formatted, so a list or string answer raises AttributeError there. */
  function RejectErrorKeys(keys: seq<string>, answer: Json): (r: Result<Json>)
    ensures r.Ok? ==> r.value == answer
    ensures r.Ok? <==> forall i :: 0 <= i < |keys| ==> Contains(keys[i], answer) == Ok(false)
    ensures r.Err? && answer.JObject? ==> r.error == EndpointMissing
    ensures keys != [] && (answer.JNull? || answer.JBool? || answer.JInt?) ==>
      r == Err(Fault(TypeError, NotIterable(answer)))
    ensures r.Err? && (answer.JArray? || answer.JString?) ==> r.error == NoGet(answer)
    decreases |keys|
  {
    if keys == [] then Ok(answer)
    else match Contains(keys[0], answer)
      case Err(f) => Err(f)
      case Ok(found) =>
        if found then (if answer.JObject? then Err(EndpointMissing) else Err(NoGet(answer)))
        else
          assert forall i :: 1 <= i < |keys| ==> keys[i] == keys[1..][i - 1];
          RejectErrorKeys(keys[1..], answer)
  }

  /** `get_api_answer` from the moment `requests.get` has returned or raised. */
  function GetApiAnswer(fetched: FetchOutcome): (r: Result<Json>)
    ensures r.Ok? <==>
      && fetched.Response? && fetched.statusCode == HttpOk && fetched.body.Parsed?
      && Contains("code", fetched.body.json) == Ok(false)
      && Contains("error", fetched.body.json) == Ok(false)
    ensures r.Ok? ==> r.value == fetched.body.json
    ensures fetched.TransportFailure? ==> r == Err(EndpointMissing)
    ensures fetched.Response? && fetched.statusCode != HttpOk ==> r == Err(EndpointMissing)
    ensures fetched.Response? && fetched.statusCode == HttpOk && fetched.body.Malformed? ==>
      r == Err(Fault(JSONDecodeError, fetched.body.reason))
  {
    match fetched
    case TransportFailure(_) => Err(EndpointMissing)
    case Response(statusCode, body) =>
      if statusCode != HttpOk then Err(EndpointMissing)
      else match body
        case Malformed(reason) => Err(Fault(JSONDecodeError, reason))
        case Parsed(answer) => RejectErrorKeys(ErrorKeys, answer)
  }

  /** For the documented shape of answer, an object: it passes exactly when it
      has neither a `code` nor an `error` key, and is returned untouched. */
  lemma GetApiAnswerOfObject(fields: seq<(string, Json)>)
    ensures var r := GetApiAnswer(Response(HttpOk, Parsed(JObject(fields))));
      && (r.Ok? <==> !HasKey(fields, "code") && !HasKey(fields, "error"))
      && (r.Ok? ==> r.value == JObject(fields))
      && (r.Err? ==> r.error == EndpointMissing)
  {
  }

  /** A failed request, an unexpected status code and an answer carrying an
      error key all end in the same KeyError: the diagnostic never says which. */
  lemma RejectionsLookAlike(cause: string, statusCode: int, body: Body, fields: seq<(string, Json)>)
    requires statusCode != HttpOk
    requires HasKey(fields, "code") || HasKey(fields, "error")
    ensures GetApiAnswer(TransportFailure(cause)) == Err(EndpointMissing)
    ensures GetApiAnswer(Response(statusCode, body)) == Err(EndpointMissing)
    ensures GetApiAnswer(Response(HttpOk, Parsed(JObject(fields)))) == Err(EndpointMissing)
  {
  }

  // ---------------------------------------------------------------------
  // check_response

  /** `check_response`: the answer must be a dict holding a list under `homeworks`;
      that list is returned. */
  function CheckResponse(response: Json): (r: Result<seq<Json>>)
    ensures r.Ok? <==>
      response.JObject? && Lookup(response.fields, "homeworks").Some?
      && Lookup(response.fields, "homeworks").value.JArray?
    ensures r.Ok? ==> Lookup(response.fields, "homeworks") == Some(JArray(r.value))
    ensures !response.JObject? ==> r == Err(Fault(TypeError, UnexpectedType(response)))
    ensures r.Err? && r.error.cls == KeyError <==>
      response.JObject? && !HasKey(response.fields, "homeworks")
    ensures r.Err? && r.error.cls == KeyError ==> r.error.arg == NoKey("homeworks")
    ensures response.JObject? && HasKey(response.fields, "homeworks") && r.Err? ==>
      r.error == Fault(TypeError, UnexpectedType(Lookup(response.fields, "homeworks").value))
  {
    if !response.JObject? then Err(Fault(TypeError, UnexpectedType(response)))
    else if !HasKey(response.fields, "homeworks") then Err(Fault(KeyError, NoKey("homeworks")))
    else
      var homeworks := GetOr(response.fields, "homeworks", JNull);
      if !homeworks.JArray? then Err(Fault(TypeError, UnexpectedType(homeworks)))
      else Ok(homeworks.items)
  }

  // ---------------------------------------------------------------------
  // parse_status

  /** The value found under `status` is one of the table's keys. */
  predicate IsKnownStatus(status: Option<Json>)
  {
    status.Some? && status.value.JString? && status.value.s in HomeworkVerdicts
  }

  /** `parse_status`: the homework must have a `homework_name` and a known
      `status`; the result is the status message for them. */
  function ParseStatus(homework: Json): (r: Result<string>)
    ensures r.Ok? <==>
      homework.JObject? && HasKey(homework.fields, "homework_name")
      && IsKnownStatus(Lookup(homework.fields, "status"))
    ensures r.Ok? ==>
      r.value == StatusMessage(
        Text(Lookup(homework.fields, "homework_name").value),
        HomeworkVerdicts[Lookup(homework.fields, "status").value.s])
    ensures homework.JObject? && !HasKey(homework.fields, "homework_name") ==>
      r == Err(Fault(ValueError, NoKey("homework_name")))
    ensures
      && homework.JObject? && HasKey(homework.fields, "homework_name")
      && (Lookup(homework.fields, "status").None? || Lookup(homework.fields, "status").value.JString?)
      ==> (r.Err? <==> r == Err(Fault(ValueError, UnexpectedStatus(GetOr(homework.fields, "status", JNull)))))
  {
    match Contains("homework_name", homework)
    case Err(f) => Err(f)
    case Ok(found) =>
      if !found then Err(Fault(ValueError, NoKey("homework_name")))
      else if !homework.JObject? then Err(NoGet(homework))
      else
        var status := GetOr(homework.fields, "status", JNull);
        if status.JArray? || status.JObject? then
          Err(Fault(TypeError, "unhashable type: '" + TypeName(status) + "'"))
        else if !(status.JString? && status.s in HomeworkVerdicts) then
          Err(Fault(ValueError, UnexpectedStatus(status)))
        else
          Ok(StatusMessage(Text(GetOr(homework.fields, "homework_name", JNull)), HomeworkVerdicts[status.s]))
  }

  /** A homework with a string name and the status `approved` gives exactly
      the approval message. */
  lemma ParseStatusApproved(name: string)
    ensures ParseStatus(JObject([("homework_name", JString(name)), ("status", JString("approved"))]))
      == Ok("Изменился статус проверки работы \"" + name + "\"." + "Работа проверена: ревьюеру всё понравилось. Ура!")
  {
    var fields := [("homework_name", JString(name)), ("status", JString("approved"))];
    assert Lookup(fields, "homework_name") == Some(JString(name));
    assert Lookup(fields, "status") == Some(JString("approved"));
    assert Contains("homework_name", JObject(fields)) == Ok(true);
    assert "approved" in HomeworkVerdicts;
    assert ParseStatus(JObject(fields)) == Ok(StatusMessage(name, HomeworkVerdicts["approved"]));
  }

  /** No verdict text ends like another: the last two characters tell them apart. */
  lemma VerdictEndings(v1: string, v2: string)
    requires v1 in HomeworkVerdicts.Values && v2 in HomeworkVerdicts.Values
    requires |v1| >= 2 && |v2| >= 2
    requires v1[|v1| - 1] == v2[|v2| - 1] && v1[|v1| - 2] == v2[|v2| - 2]
    ensures v1 == v2
  {
    var approved, reviewing, rejected :=
      HomeworkVerdicts["approved"], HomeworkVerdicts["reviewing"], HomeworkVerdicts["rejected"];
    assert HomeworkVerdicts.Values == {approved, reviewing, rejected} by {
      assert approved in HomeworkVerdicts.Values;
      assert reviewing in HomeworkVerdicts.Values;
      assert rejected in HomeworkVerdicts.Values;
    }
    assert approved[|approved| - 1] == '!';
    assert reviewing[|reviewing| - 2] == 'м';
    assert rejected[|rejected| - 2] == 'я';
  }

  /** Two status messages are equal exactly when they name the same homework
      with the same verdict, so comparing messages compares (name, verdict). */
  lemma StatusMessageInjective(n1: string, v1: string, n2: string, v2: string)
    requires v1 in HomeworkVerdicts.Values && v2 in HomeworkVerdicts.Values
    ensures StatusMessage(n1, v1) == StatusMessage(n2, v2) <==> n1 == n2 && v1 == v2
  {
    var m1, m2 := StatusMessage(n1, v1), StatusMessage(n2, v2);
    if m1 == m2 {
      assert |v1| >= 2 && |v2| >= 2 by {
        forall v | v in HomeworkVerdicts.Values ensures |v| >= 2 {
          var k :| k in HomeworkVerdicts && HomeworkVerdicts[k] == v;
        }
      }
      assert m1[|m1| - 1] == v1[|v1| - 1] && m1[|m1| - 2] == v1[|v1| - 2];
      assert m2[|m2| - 1] == v2[|v2| - 1] && m2[|m2| - 2] == v2[|v2| - 2];
      VerdictEndings(v1, v2);
      var p := |StatusPrefix|;
      assert |n1| == |n2|;
      assert n1 == m1[p..p + |n1|];
      assert n2 == m2[p..p + |n2|];
    }
  }

  /** Distinct statuses have distinct verdicts. */
  lemma VerdictsDistinct(s1: string, s2: string)
    requires s1 in HomeworkVerdicts && s2 in HomeworkVerdicts
    ensures HomeworkVerdicts[s1] == HomeworkVerdicts[s2] <==> s1 == s2
  {
  }

  /** For one homework, a change of status always changes the message, so
      the comparison with the previous message notices every status change. */
  lemma StatusChangeChangesMessage(h1: Json, h2: Json)
    requires ParseStatus(h1).Ok? && ParseStatus(h2).Ok?
    requires Lookup(h1.fields, "homework_name") == Lookup(h2.fields, "homework_name")
    ensures ParseStatus(h1) == ParseStatus(h2) <==>
      Lookup(h1.fields, "status") == Lookup(h2.fields, "status")
  {
    var s1, s2 := Lookup(h1.fields, "status").value.s, Lookup(h2.fields, "status").value.s;
    StatusMessageInjective(
      Text(Lookup(h1.fields, "homework_name").value), HomeworkVerdicts[s1],
      Text(Lookup(h2.fields, "homework_name").value), HomeworkVerdicts[s2]);
    VerdictsDistinct(s1, s2);
  }

  // ---------------------------------------------------------------------
  // The body of main's try block

  /** What one pass through the `try` block of `main` decides from what the
      request returned: an exception, nothing to report (the answer lists no
      homework), or the status message of the first homework listed. */
  function Attempt(fetched: FetchOutcome): (r: Result<Option<string>>)
    ensures r.Ok? && r.value.Some? ==> StatusPrefix <= r.value.value
  {
    match GetApiAnswer(fetched)
    case Err(f) => Err(f)
    case Ok(answer) =>
      match CheckResponse(answer)
      case Err(f) => Err(f)
      case Ok(homeworks) =>
        if homeworks == [] then Ok(None)
        else match ParseStatus(homeworks[0])
          case Err(f) => Err(f)
          case Ok(message) => Ok(Some(message))
  }

  /** The `try` block runs its three stages in order: the first one that
      raises decides the error, an empty list of homeworks ends the pass
      quietly, and otherwise the first homework's status message is the
      result. */
  lemma AttemptStages(fetched: FetchOutcome)
    ensures GetApiAnswer(fetched).Err? ==> Attempt(fetched) == Err(GetApiAnswer(fetched).error)
    ensures GetApiAnswer(fetched).Ok? && CheckResponse(GetApiAnswer(fetched).value).Err? ==>
      Attempt(fetched) == Err(CheckResponse(GetApiAnswer(fetched).value).error)
    ensures Attempt(fetched) == Ok(None) <==>
      GetApiAnswer(fetched).Ok? && CheckResponse(GetApiAnswer(fetched).value) == Ok([])
    ensures
      && GetApiAnswer(fetched).Ok? && CheckResponse(GetApiAnswer(fetched).value).Ok?
      && CheckResponse(GetApiAnswer(fetched).value).value != []
      ==>
      var first := ParseStatus(CheckResponse(GetApiAnswer(fetched).value).value[0]);
      && (first.Err? ==> Attempt(fetched) == Err(first.error))
      && (first.Ok? ==> Attempt(fetched) == Ok(Some(first.value)))
  {
  }

  /** A well-formed answer: a dict with the `homeworks` list and nothing that
      reads as an API error. */
  predicate IsCleanAnswer(fields: seq<(string, Json)>, homeworks: seq<Json>)
  {
    && Lookup(fields, "homeworks") == Some(JArray(homeworks))
    && !HasKey(fields, "code")
    && !HasKey(fields, "error")
  }

  /** An answer that lists no homework yields nothing to send and no error. */
  lemma EmptyAnswerIsQuiet(fields: seq<(string, Json)>)
    requires IsCleanAnswer(fields, [])
    ensures Attempt(Response(HttpOk, Parsed(JObject(fields)))) == Ok(None)
  {
    GetApiAnswerOfObject(fields);
  }

  /** Only the first homework listed matters: the result is what parsing it
      gives, whatever the rest of the list holds. */
  lemma FirstHomeworkDecides(fields: seq<(string, Json)>, homeworks: seq<Json>)
    requires IsCleanAnswer(fields, homeworks) && homeworks != []
    ensures var r := Attempt(Response(HttpOk, Parsed(JObject(fields))));
      && (r.Ok? <==> ParseStatus(homeworks[0]).Ok?)
      && (r.Ok? ==> r.value == Some(ParseStatus(homeworks[0]).value))
      && (r.Err? ==> r.error == ParseStatus(homeworks[0]).error)
  {
    GetApiAnswerOfObject(fields);
  }
}
