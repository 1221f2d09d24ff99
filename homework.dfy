/** The decision core of the bot: the startup gate, the classification of one API call,
    the response validator and the status parser. */
module Homework {
  import opened Wrappers
  import opened PyJson
  import opened PyErrors

  /** The recipient is fixed in the program rather than read from the environment. */
  const TELEGRAM_CHAT_ID: Json := Int(712994870)

  const HTTP_OK: int := 200

  /** The review statuses the API documents, and the text the user is sent for each. */
  const HOMEWORK_VERDICTS: map<string, string> := map[
    "approved" := "Работа проверена: ревьюеру всё понравилось. Ура!",
    "reviewing" := "Работа взята на проверку ревьюером.",
    "rejected" := "Работа проверена: у ревьюера есть замечания."
  ]

  const MISSING_FIELDS: string := "В ответе API отсутствует имя работы или статус"
  const UNDOCUMENTED_STATUS: string := "Недокументированный статус домашней работы - "
  const STATUS_HEADER: string := "Изменился статус проверки работы \""

  // ---------------------------------------------------------------- startup gate

  /** `check_tokens`: the bot may start only when the API token, the bot token and the
      chat id are all truthy. */
  function CheckTokens(practicumToken: Json, telegramToken: Json, chatId: Json): (ok: bool)
    ensures ok <==> Truthy(practicumToken) && Truthy(telegramToken) && Truthy(chatId)
  {
    var values := [practicumToken, telegramToken, chatId];
    assert values[0] == practicumToken && values[1] == telegramToken && values[2] == chatId;
    All(values)
  }

  /** With the chat id the program fixes, only the two tokens from the environment decide. */
  lemma GateDependsOnTokens(practicumToken: Json, telegramToken: Json)
    ensures CheckTokens(practicumToken, telegramToken, TELEGRAM_CHAT_ID)
        <==> Truthy(practicumToken) && Truthy(telegramToken)
  {
  }

  // ---------------------------------------------------------------- API call

  /** What the HTTP layer delivered for a reply: a decoded body, or one that is not JSON. */
  datatype Body = Decoded(value: Json) | Undecodable

  /** The outcome of `requests.get`: a reply with its status code, a `RequestException`
      (connection refused, timeout, ...), or any other exception. */
  datatype Transport =
    | Reply(statusCode: int, body: Body)
    | RequestFault
    | OtherFault

  /** `get_api_answer`: only a 200 reply yields a value (`None` when its body is not JSON);
      a non-200 code and a request fault both turn into a bare `KeyError`, any other
      fault into a bare `TypeError`. */
  function GetApiAnswer(t: Transport): (r: Result<Json, Error>)
    ensures r.Success? <==> t.Reply? && t.statusCode == HTTP_OK
    ensures r.Success? && t.body.Decoded? ==> r.value == t.body.value
    ensures r.Success? && t.body.Undecodable? ==> r.value == Null
    ensures t.RequestFault? || (t.Reply? && t.statusCode != HTTP_OK) ==> r == Failure(KeyError(None))
    ensures t.OtherFault? ==> r == Failure(TypeError(""))
  {
    match t
    case Reply(code, body) =>
      if code != HTTP_OK then Failure(KeyError(None))   // HTTPError, re-raised as KeyError
      else if body.Undecodable? then Success(Null)      // JSONDecodeError: returns None
      else Success(body.value)
    case RequestFault => Failure(KeyError(None))
    case OtherFault => Failure(TypeError(""))
  }

  // ---------------------------------------------------------------- validator

  /** `check_response`: the payload must be a dict holding a list under `homeworks`; that
      list is returned as it is. Rejections come in a fixed order, each with its own kind. */
  function CheckResponse(response: Json): (r: Result<seq<Json>, Error>)
    ensures r.Success? <==>
      response.Dict? && "homeworks" in response.entries && response.entries["homeworks"].List?
    ensures r.Success? ==> r.value == response.entries["homeworks"].items
    ensures !Truthy(response) ==> r == Failure(BareException)
    ensures Truthy(response) && !response.Dict? ==> r == Failure(TypeError(""))
    ensures Truthy(response) && response.Dict? && "homeworks" !in response.entries ==>
      r == Failure(KeyError(None))
    ensures response.Dict? && "homeworks" in response.entries && !response.entries["homeworks"].List? ==>
      r == Failure(TypeError(""))
  {
    if !Truthy(response) then Failure(BareException)
    else if !response.Dict? then Failure(TypeError(""))
    else if "homeworks" !in response.entries then Failure(KeyError(None))
    else if !response.entries["homeworks"].List? then Failure(TypeError(""))
    else Success(response.entries["homeworks"].items)
  }

  /** Each rejection kind of `check_response`, and the empty-list success, on concrete payloads. */
  lemma CheckResponseExamples()
    ensures CheckResponse(Null) == Failure(BareException)
    ensures CheckResponse(Dict(map[])) == Failure(BareException)
    ensures CheckResponse(Dict(map["homeworks" := Str("not-a-list")])) == Failure(TypeError(""))
    ensures CheckResponse(Dict(map["other" := Int(1)])) == Failure(KeyError(None))
    ensures CheckResponse(Dict(map["homeworks" := List([])])) == Success([])
  {
    assert "other"[0] != "homeworks"[0];
    var other := Dict(map["other" := Int(1)]);
    assert "other" in other.entries && Truthy(other);
    assert "homeworks" !in other.entries;
  }

  // ---------------------------------------------------------------- status parser

  /** `HOMEWORK_VERDICTS.get(status)`: a list or dict key is unhashable and raises; any
      other key that is not one of the table's strings gives `None`. */
  function LookupVerdict(status: Json): (r: Result<Json, Error>)
    ensures r.Failure? <==> status.List? || status.Dict?
    ensures r.Failure? ==> r.error == TypeError("unhashable type: '" + TypeName(status) + "'")
    ensures r.Success? ==>
      (r.value.Str? <==> status.Str? && status.s in HOMEWORK_VERDICTS) &&
      (r.value.Str? ==> r.value.s == HOMEWORK_VERDICTS[status.s]) &&
      (!r.value.Str? ==> r.value == Null)
  {
    match status
    case List(_) | Dict(_) => Failure(TypeError("unhashable type: '" + TypeName(status) + "'"))
    case Str(s) => Success(if s in HOMEWORK_VERDICTS then Str(HOMEWORK_VERDICTS[s]) else Null)
    case _ => Success(Null)
  }

  /** The notification for a status change of the named work: the header, the name as
      `str()` shows it, a closing quote and full stop, then the verdict text. */
  function StatusMessage(name: Json, verdict: string): (m: string)
    ensures |m| == |STATUS_HEADER| + |Show(name)| + 3 + |verdict|
    ensures m[..|STATUS_HEADER|] == STATUS_HEADER
    ensures m[|STATUS_HEADER|..|STATUS_HEADER| + |Show(name)|] == Show(name)
    ensures m[|m| - |verdict|..] == verdict
  {
    STATUS_HEADER + Show(name) + "\". " + verdict
  }

  /** `parse_status`: reads `homework_name` and `status` with `.get`; both must be truthy,
      and the status must be one of the table's keys. */
  function ParseStatus(homework: Json): (r: Result<string, Error>)
    ensures !homework.Dict? ==>
      r == Failure(AttributeError("'" + TypeName(homework) + "' object has no attribute 'get'"))
    ensures (homework.Dict? &&
      !(Truthy(Get(homework, "homework_name")) && Truthy(Get(homework, "status")))) ==>
      r == Failure(KeyError(Some(MISSING_FIELDS)))
    ensures r.Success? <==>
      homework.Dict? && Truthy(Get(homework, "homework_name")) &&
      Get(homework, "status").Str? && Get(homework, "status").s in HOMEWORK_VERDICTS
    ensures r.Success? ==>
      r.value == StatusMessage(Get(homework, "homework_name"), HOMEWORK_VERDICTS[Get(homework, "status").s])
  {
    if !homework.Dict? then
      Failure(AttributeError("'" + TypeName(homework) + "' object has no attribute 'get'"))
    else
      var name := Get(homework, "homework_name");
      var status := Get(homework, "status");
      var fields := [name, status];
      assert fields[0] == name && fields[1] == status;
      if All(fields) then
        match LookupVerdict(status)
        case Failure(e) => Failure(e)
        case Success(verdict) =>
          if !Truthy(verdict) then Failure(ValueError(UNDOCUMENTED_STATUS + Show(status)))
          else Success(StatusMessage(name, Show(verdict)))
      else
        Failure(KeyError(Some(MISSING_FIELDS)))
  }

  /** A record with a truthy name and a documented status gives the header, the name and
      exactly that status's verdict text. */
  lemma KnownStatusMessage(name: Json, status: string)
    requires Truthy(name) && status in HOMEWORK_VERDICTS
    ensures ParseStatus(Dict(map["homework_name" := name, "status" := Str(status)]))
         == Success(STATUS_HEADER + Show(name) + "\". " + HOMEWORK_VERDICTS[status])
  {
  }

  /** A truthy string status outside the table raises `ValueError`, whose message ends
      with that status. */
  lemma UnknownStatusRejected(homework: Json)
    requires homework.Dict? && Truthy(Get(homework, "homework_name"))
    requires Get(homework, "status").Str? && Truthy(Get(homework, "status"))
    requires Get(homework, "status").s !in HOMEWORK_VERDICTS
    ensures var s := Get(homework, "status").s;
      ParseStatus(homework) == Failure(ValueError(UNDOCUMENTED_STATUS + s)) &&
      ParseStatus(homework).error.msg[|UNDOCUMENTED_STATUS|..] == s
  {
    var s := Get(homework, "status").s;
    assert (UNDOCUMENTED_STATUS + s)[|UNDOCUMENTED_STATUS|..] == s;
  }

  /** A truthy integer status raises `ValueError`, and the text after the message's prefix
      reads back as that integer. */
  lemma IntegerStatusInMessage(homework: Json)
    requires homework.Dict? && Truthy(Get(homework, "homework_name"))
    requires Get(homework, "status").Int? && Get(homework, "status").i != 0
    ensures ParseStatus(homework).Failure? && ParseStatus(homework).error.ValueError?
    ensures var msg := ParseStatus(homework).error.msg;
      |UNDOCUMENTED_STATUS| <= |msg| &&
      msg[|UNDOCUMENTED_STATUS|..] == Decimal(Get(homework, "status").i) &&
      ReadDecimal(msg[|UNDOCUMENTED_STATUS|..]) == Get(homework, "status").i
  {
    var i := Get(homework, "status").i;
    assert ParseStatus(homework).error.msg == UNDOCUMENTED_STATUS + Decimal(i);
    assert (UNDOCUMENTED_STATUS + Decimal(i))[|UNDOCUMENTED_STATUS|..] == Decimal(i);
    DecimalRoundTrip(i);
  }

  /** A truthy status that is not a string never matches the table: a number raises
      `ValueError`, a list or dict raises `TypeError` from the lookup itself. */
  lemma NonStringStatusRejected(homework: Json)
    requires homework.Dict? && Truthy(Get(homework, "homework_name"))
    requires Truthy(Get(homework, "status")) && !Get(homework, "status").Str?
    ensures var status := Get(homework, "status");
      ParseStatus(homework).Failure? &&
      (status.Int? || status.Bool? ==> ParseStatus(homework) == Failure(ValueError(UNDOCUMENTED_STATUS + Show(status)))) &&
      (status.List? || status.Dict? ==> ParseStatus(homework).error.TypeError?)
  {
  }

  /** The field check comes before the table lookup: a falsy name yields the `KeyError`
      even when the status could not be looked up at all. */
  lemma MissingFieldPrecedesLookup(status: Json)
    ensures ParseStatus(Dict(map["status" := status])) == Failure(KeyError(Some(MISSING_FIELDS)))
    ensures ParseStatus(Dict(map["homework_name" := Str(""), "status" := status]))
         == Failure(KeyError(Some(MISSING_FIELDS)))
  {
  }

  /** For a given work, the message tells the three documented statuses apart. */
  lemma {:induction false} MessageDeterminesStatus(h1: Json, h2: Json)
    requires ParseStatus(h1).Success? && ParseStatus(h2).Success?
    requires Get(h1, "homework_name") == Get(h2, "homework_name")
    requires ParseStatus(h1).value == ParseStatus(h2).value
    ensures Get(h1, "status") == Get(h2, "status")
  {
    var prefix := STATUS_HEADER + Show(Get(h1, "homework_name")) + "\". ";
    var s1, s2 := Get(h1, "status").s, Get(h2, "status").s;
    var v1, v2 := HOMEWORK_VERDICTS[s1], HOMEWORK_VERDICTS[s2];
    assert ParseStatus(h1).value == prefix + v1;
    assert ParseStatus(h2).value == prefix + v2;
    assert v1 == (prefix + v1)[|prefix|..];
    assert v2 == (prefix + v2)[|prefix|..];
    assert v1 == v2;
  }
}
