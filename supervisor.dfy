/** The polling loop of `main`: the startup gate, the cursor, and one cycle of
    fetch, validate, compare, parse, notify and sleep. */
module Supervisor {
  import opened Wrappers
  import opened PyJson
  import opened PyErrors
  import opened Homework

  const START_MESSAGE: string := "Старт бота"
  const FAULT_PREFIX: string := "Сбой в работе программы: "

  /** `timestamp1` starts at 1. */
  const INITIAL_CURSOR: Json := Int(1)

  /** The message sent for an exception caught in a cycle: the fixed prefix, then the
      exception's text and nothing else. */
  function FaultMessage(e: Error): (m: string)
    ensures |m| == |FAULT_PREFIX| + |ErrText(e)|
    ensures m[..|FAULT_PREFIX|] == FAULT_PREFIX && m[|FAULT_PREFIX|..] == ErrText(e)
  {
    FAULT_PREFIX + ErrText(e)
  }

  /** How the `try` block of one cycle ends: the cursor as it stands at that moment, and
      either the messages the block sent or the exception that left it. */
  datatype Attempt = Attempt(cursor: Json, outcome: Result<seq<string>, Error>)

  /** The `try` block of one cycle, from the cursor it starts with. The cursor is
      overwritten with `current_date` before the first record is parsed. */
  function TryCycle(cursor: Json, t: Transport): (a: Attempt)
    ensures a.outcome.Success? ==> |a.outcome.value| <= 1
  {
    match GetApiAnswer(t)
    case Failure(e) => Attempt(cursor, Failure(e))
    case Success(response) =>
      match CheckResponse(response)
      case Failure(e) => Attempt(cursor, Failure(e))
      case Success(homeworks) =>
        var date := Get(response, "current_date");
        if Truthy(List(homeworks)) && !PyEq(cursor, date) then
          match ParseStatus(homeworks[0])
          case Failure(e) => Attempt(date, Failure(e))
          case Success(message) => Attempt(date, Success([message]))
        else
          Attempt(cursor, Success([]))
  }

  /** What the loop has done so far: the cursor, every message sent (in order), the
      `from_date` of every request made, and the number of sleeps. */
  datatype Snapshot = Snapshot(cursor: Json, notifications: seq<string>, queried: seq<Json>, sleeps: nat)

  /** One iteration of the loop: the `try` block, one fault message if it raised, and the
      sleep of the `finally` clause. */
  function Step(s: Snapshot, t: Transport): (n: Snapshot)
    ensures n.sleeps == s.sleeps + 1
    ensures n.queried == s.queried + [s.cursor]
    ensures |s.notifications| <= |n.notifications| <= |s.notifications| + 1
    ensures n.notifications[..|s.notifications|] == s.notifications
    ensures TryCycle(s.cursor, t).outcome.Failure? ==>
      n.notifications == s.notifications + [FaultMessage(TryCycle(s.cursor, t).outcome.error)]
  {
    var a := TryCycle(s.cursor, t);
    var sent := if a.outcome.Success? then a.outcome.value else [FaultMessage(a.outcome.error)];
    Snapshot(a.cursor, s.notifications + sent, s.queried + [s.cursor], s.sleeps + 1)
  }

  /** The state once the gate has passed: the cursor at 1 and the start message sent. */
  const INITIAL: Snapshot := Snapshot(INITIAL_CURSOR, [START_MESSAGE], [], 0)

  /** The state after the given cycles, in order. */
  function Replay(ts: seq<Transport>): Snapshot
    decreases |ts|
  {
    if ts == [] then INITIAL else Step(Replay(ts[..|ts| - 1]), ts[|ts| - 1])
  }

  /** The running bot: the locals of `main` that outlive one iteration, and what it has sent. */
  class Bot {
    var cursor: Json
    var notifications: seq<string>
    var queried: seq<Json>
    var sleeps: nat

    function State(): Snapshot
      reads this
    {
      Snapshot(cursor, notifications, queried, sleeps)
    }

    /** Creates the bot, sets the cursor to 1 and sends the start message. */
    constructor ()
      ensures State() == INITIAL
    {
      cursor := INITIAL_CURSOR;
      notifications := [START_MESSAGE];
      queried := [];
      sleeps := 0;
    }

    /** One iteration of `while True`. */
    method Cycle(t: Transport)
      modifies this
      ensures State() == Step(old(State()), t)
    {
      var raised: Option<Error> := None;
      queried := queried + [cursor];
      var answer := GetApiAnswer(t);
      if answer.Failure? {
        raised := Some(answer.error);
      } else {
        var checked := CheckResponse(answer.value);
        if checked.Failure? {
          raised := Some(checked.error);
        } else {
          var homeworks := checked.value;
          var date := Get(answer.value, "current_date");
          if Truthy(List(homeworks)) && !PyEq(cursor, date) {
            cursor := date;
            var parsed := ParseStatus(homeworks[0]);
            if parsed.Failure? {
              raised := Some(parsed.error);
            } else {
              notifications := notifications + [parsed.value];
            }
          }
        }
      }
      if raised.Some? {
        notifications := notifications + [FaultMessage(raised.value)];
      }
      sleeps := sleeps + 1;
    }
  }

  /** How `main` ends within the cycles considered: it exits with a code before polling,
      or it is still polling in the given state. */
  datatype Run = Exited(code: int) | Polled(state: Snapshot)

  /** `main` run for as many cycles as there are transport outcomes. Without the tokens it
      exits with -1 before sending or fetching anything; otherwise it polls. */
  method RunBot(practicumToken: Json, telegramToken: Json, outcomes: seq<Transport>) returns (run: Run)
    ensures !(Truthy(practicumToken) && Truthy(telegramToken)) ==> run == Exited(-1)
    ensures Truthy(practicumToken) && Truthy(telegramToken) ==> run == Polled(Replay(outcomes))
  {
    if !CheckTokens(practicumToken, telegramToken, TELEGRAM_CHAT_ID) {
      return Exited(-1);
    }
    var bot := new Bot();
    var i := 0;
    while i < |outcomes|
      invariant 0 <= i <= |outcomes|
      invariant bot.State() == Replay(outcomes[..i])
    {
      bot.Cycle(outcomes[i]);
      assert outcomes[..i + 1][..i] == outcomes[..i];
      i := i + 1;
    }
    assert outcomes[..|outcomes|] == outcomes;
    return Polled(bot.State());
  }

  // ---------------------------------------------------------------- properties of a cycle

  /** A failed request, a non-200 reply and an unexpected fault each give exactly one
      fault message and leave the cursor alone. */
  lemma FetchFaultReported(s: Snapshot, t: Transport)
    requires t.RequestFault? || t.OtherFault? || (t.Reply? && t.statusCode != HTTP_OK)
    ensures Step(s, t).cursor == s.cursor
    ensures Step(s, t).notifications == s.notifications + [FAULT_PREFIX]
  {
    assert FAULT_PREFIX + "" == FAULT_PREFIX;
  }

  /** A 200 reply whose body is not JSON makes `get_api_answer` return `None`, which the
      validator rejects: one fault message, cursor unchanged. */
  lemma MalformedBodyReported(s: Snapshot)
    ensures Step(s, Reply(HTTP_OK, Undecodable)).cursor == s.cursor
    ensures Step(s, Reply(HTTP_OK, Undecodable)).notifications == s.notifications + [FAULT_PREFIX]
  {
    assert FAULT_PREFIX + "" == FAULT_PREFIX;
  }

  /** The operator cannot tell an unreachable API from an undecodable reply: both fault
      messages carry empty details. */
  lemma FaultTextsCoincide(s: Snapshot)
    ensures Step(s, RequestFault).notifications == Step(s, Reply(HTTP_OK, Undecodable)).notifications
  {
  }

  /** A 200 reply whose decoded body the validator rejects sends exactly one fault message,
      carrying the validator's exception, and leaves the cursor alone. */
  lemma ValidatorRejection(s: Snapshot, body: Json)
    requires CheckResponse(body).Failure?
    ensures Step(s, Reply(HTTP_OK, Decoded(body))).cursor == s.cursor
    ensures Step(s, Reply(HTTP_OK, Decoded(body))).notifications
         == s.notifications + [FaultMessage(CheckResponse(body).error)]
  {
  }

  /** A valid reply with no records, or with a `current_date` equal to the cursor, sends
      nothing and keeps the cursor. */
  lemma NoChangeIsQuiet(s: Snapshot, response: Json)
    requires CheckResponse(response).Success?
    requires CheckResponse(response).value == [] || PyEq(s.cursor, Get(response, "current_date"))
    ensures Step(s, Reply(HTTP_OK, Decoded(response))).cursor == s.cursor
    ensures Step(s, Reply(HTTP_OK, Decoded(response))).notifications == s.notifications
  {
  }

  /** A valid reply with records and a new `current_date` moves the cursor to it before
      parsing, so the cursor moves even when parsing fails; the single message is about the
      first record only. */
  lemma ChangeAdvancesCursor(s: Snapshot, response: Json)
    requires CheckResponse(response).Success? && CheckResponse(response).value != []
    requires !PyEq(s.cursor, Get(response, "current_date"))
    ensures var n := Step(s, Reply(HTTP_OK, Decoded(response)));
      var first := ParseStatus(CheckResponse(response).value[0]);
      n.cursor == Get(response, "current_date") &&
      n.notifications == s.notifications +
        [if first.Success? then first.value else FaultMessage(first.error)]
  {
  }

  /** A reply with records but no `current_date` stores `None` as the cursor. */
  lemma AbsentDateStoresNone(s: Snapshot, response: Json)
    requires CheckResponse(response).Success? && CheckResponse(response).value != []
    requires "current_date" !in response.entries
    ensures Step(s, Reply(HTTP_OK, Decoded(response))).cursor == Null
  {
  }

  /** The cursor only moves on a valid reply with records, and then to its `current_date`. */
  lemma CursorMovesOnlyOnChange(s: Snapshot, t: Transport)
    requires Step(s, t).cursor != s.cursor
    ensures t.Reply? && t.statusCode == HTTP_OK
    ensures var response := GetApiAnswer(t).value;
      CheckResponse(response).Success? && CheckResponse(response).value != [] &&
      !PyEq(s.cursor, Get(response, "current_date")) &&
      Step(s, t).cursor == Get(response, "current_date")
  {
  }

  /** Receiving the same valid reply twice in a row: the second cycle is quiet. */
  lemma {:induction false} RepeatedReplyIsQuiet(s: Snapshot, response: Json)
    requires CheckResponse(response).Success?
    ensures var t := Reply(HTTP_OK, Decoded(response));
      Step(Step(s, t), t).cursor == Step(s, t).cursor &&
      Step(Step(s, t), t).notifications == Step(s, t).notifications
  {
    var t := Reply(HTTP_OK, Decoded(response));
    var date := Get(response, "current_date");
    if CheckResponse(response).value != [] && !PyEq(s.cursor, date) {
      PyEqReflexive(date);
      NoChangeIsQuiet(Step(s, t), response);
    } else {
      NoChangeIsQuiet(s, response);
      NoChangeIsQuiet(Step(s, t), response);
    }
  }

  /** `hw1` approved at date 100 is reported once and moves the cursor from 1 to 100;
      the same reply again sends nothing. */
  lemma ApprovedScenario()
    ensures var record := Dict(map["homework_name" := Str("hw1"), "status" := Str("approved")]);
      var response := Dict(map["homeworks" := List([record]), "current_date" := Int(100)]);
      var t := Reply(HTTP_OK, Decoded(response));
      Replay([t]) == Snapshot(Int(100), [START_MESSAGE, StatusMessage(Str("hw1"), HOMEWORK_VERDICTS["approved"])], [Int(1)], 1) &&
      Replay([t, t]) == Snapshot(Int(100), [START_MESSAGE, StatusMessage(Str("hw1"), HOMEWORK_VERDICTS["approved"])], [Int(1), Int(100)], 2)
  {
    var record := Dict(map["homework_name" := Str("hw1"), "status" := Str("approved")]);
    var response := Dict(map["homeworks" := List([record]), "current_date" := Int(100)]);
    var t := Reply(HTTP_OK, Decoded(response));
    assert [t, t][..1] == [t];
    KnownStatusMessage(Str("hw1"), "approved");
    RepeatedReplyIsQuiet(INITIAL, response);
  }

  // ---------------------------------------------------------------- properties of a run

  /** After n cycles: n sleeps, n requests, the start message first, and between 1 and
      n + 1 messages in all. */
  lemma {:induction false} ReplayCounts(ts: seq<Transport>)
    ensures Replay(ts).sleeps == |ts| && |Replay(ts).queried| == |ts|
    ensures 1 <= |Replay(ts).notifications| <= |ts| + 1
    ensures Replay(ts).notifications[0] == START_MESSAGE
    decreases |ts|
  {
    if ts != [] {
      ReplayCounts(ts[..|ts| - 1]);
    }
  }

  /** Request k is made with the cursor left by the first k cycles. */
  lemma {:induction false} RequestsUseCursor(ts: seq<Transport>, k: nat)
    requires k < |ts|
    ensures |Replay(ts).queried| == |ts|
    ensures Replay(ts).queried[k] == Replay(ts[..k]).cursor
    decreases |ts|
  {
    ReplayCounts(ts);
    var prefix := ts[..|ts| - 1];
    if k < |ts| - 1 {
      RequestsUseCursor(prefix, k);
      ReplayCounts(prefix);
      assert prefix[..k] == ts[..k];
    } else {
      ReplayCounts(prefix);
      assert prefix == ts[..k];
    }
  }
}
