/** One pass of the bot's polling loop as a pure state transition, runs of
    finitely many passes, and the startup check that guards the loop. The
    HTTP request and the chat transport are inputs: each pass is given what
    the API call produced and whether the message, if one is sent, was
    delivered. */
module PollLoop {
  import opened Results
  import opened Exceptions
  import opened Json
  import opened Homework

  /** The two loop-local variables of `main`: the last notification sent and
      the `from_date` cursor. The cursor is whatever the answer held under
      `current_date`, so it need not be an integer. */
  datatype State = State(previousStatus: string, timestamp: Json)

  /** What the API call of one pass produced: the decoded JSON body, or the
      exception it raised (`ApiAnswerError`, `ConnectionError`, or the
      `ValueError` of a body that is not JSON). */
  datatype ApiOutcome = Answer(body: Json) | ApiFailed(error: PyError)

  /** What one pass did, as the loop logs it. */
  datatype Outcome =
    | Sent(message: string)   // a new notification was delivered
    | Unchanged               // the notification equals the last one sent
    | NoHomeworks             // the answer holds an empty list
    | Failed(error: PyError)  // the exception caught and logged by the loop

  datatype Cycle = Cycle(state: State, outcome: Outcome)

  /** `main` before the loop: it exits unless the tokens pass `check_tokens`,
      and starts from an empty last notification and cursor 0. */
  function Start(practicumToken: Option<string>, telegramToken: Option<string>,
                 telegramChatId: Option<string>): (r: Option<State>)
    ensures r.Some? <==> CheckTokens(practicumToken, telegramToken, telegramChatId)
    ensures r.Some? ==> r.value.previousStatus == "" && r.value.timestamp == Int(0)
  {
    if CheckTokens(practicumToken, telegramToken, telegramChatId) then Some(State("", Int(0)))
    else None
  }

  /** The notification an API outcome calls for: `None` when the list of
      homeworks is empty, otherwise the formatted status of its first
      homework; or the exception raised on the way. */
  function Evaluate(api: ApiOutcome): (r: Result<Option<string>, PyError>)
    ensures api.ApiFailed? ==> r == Failure(api.error)
    ensures api.Answer? && CheckResponse(api.body).Failure? ==> r == Failure(CheckResponse(api.body).error)
    ensures api.Answer? && CheckResponse(api.body) == Success([]) ==> r == Success(None)
    ensures api.Answer? && CheckResponse(api.body).Success? && |CheckResponse(api.body).value| > 0 ==>
      var parsed := ParseStatus(CheckResponse(api.body).value[0]);
      r == (if parsed.Success? then Success(Some(parsed.value)) else Failure(parsed.error))
  {
    match api
    case ApiFailed(e) => Failure(e)
    case Answer(body) =>
      var homeworks :- CheckResponse(body);
      if |homeworks| == 0 then Success(None)
      else
        var message :- ParseStatus(homeworks[0]);
        Success(Some(message))
  }

  /** The cursor the loop moves to after a delivered notification. */
  function CurrentDate(api: ApiOutcome): (date: Json)
    ensures !api.Answer? || !api.body.Object? ==> date == Null
    ensures api.Answer? && api.body.Object? && Lookup(api.body.fields, "current_date").None? ==> date == Null
    ensures api.Answer? && api.body.Object? && Lookup(api.body.fields, "current_date").Some? ==>
      date == Lookup(api.body.fields, "current_date").value
  {
    if api.Answer? && api.body.Object? then Get(api.body, "current_date") else Null
  }

  /** One pass of the loop. The state moves only when a notification
      different from the last one sent is delivered, and then it moves to
      that notification and the answer's date; every exception is caught. */
  function Step(s: State, api: ApiOutcome, delivered: bool): (c: Cycle)
    ensures c.state != s ==> c.outcome.Sent?
    ensures c.outcome.Sent? ==>
      && delivered && c.outcome.message != s.previousStatus
      && c.state == State(c.outcome.message, CurrentDate(api))
  {
    match Evaluate(api)
    case Failure(e) => Cycle(s, Failed(e))
    case Success(None) => Cycle(s, NoHomeworks)
    case Success(Some(message)) =>
      if message == s.previousStatus then Cycle(s, Unchanged)
      else if !delivered then Cycle(s, Failed(SendMessageError(message)))
      else Cycle(State(message, CurrentDate(api)), Sent(message))
  }

  /** What a pass reports: it sends exactly when the API outcome calls for
      a notification different from the last one sent and the send is
      delivered; an equal notification is `Unchanged` and an empty list
      `NoHomeworks`; the exception of the request, of `check_response` or
      of `parse_status` is reported as it was raised, and an undelivered
      notification as `SendMessageError` carrying it. */
  lemma {:induction false} StepReports(s: State, api: ApiOutcome, delivered: bool)
    ensures Step(s, api, delivered).outcome.Sent? <==>
      Evaluate(api).Success? && Evaluate(api).value.Some? &&
      Evaluate(api).value.value != s.previousStatus && delivered
    ensures Step(s, api, delivered).outcome.Sent? ==>
      Evaluate(api) == Success(Some(Step(s, api, delivered).outcome.message))
    ensures Step(s, api, delivered).outcome == Unchanged <==> Evaluate(api) == Success(Some(s.previousStatus))
    ensures Step(s, api, delivered).outcome == NoHomeworks <==> Evaluate(api) == Success(None)
    ensures Evaluate(api).Failure? ==> Step(s, api, delivered).outcome == Failed(Evaluate(api).error)
    ensures Evaluate(api).Success? && Evaluate(api).value.Some? &&
            Evaluate(api).value.value != s.previousStatus && !delivered ==>
      Step(s, api, delivered).outcome == Failed(SendMessageError(Evaluate(api).value.value))
  {
  }

  /** The state after a run of passes and the notifications sent, in order. */
  datatype Trace = Trace(state: State, sent: seq<string>)

  /** Consecutive passes of the loop, each given its API outcome and whether
      a send would be delivered. The last notification sent is the final
      `previousStatus`, no notification is sent twice in a row, and a run
      that sends nothing leaves the state as it was. */
  function Run(s: State, inputs: seq<(ApiOutcome, bool)>): (t: Trace)
    ensures |t.sent| <= |inputs|
    ensures |t.sent| == 0 ==> t.state == s
    ensures |t.sent| > 0 ==>
      t.sent[0] != s.previousStatus && t.state.previousStatus == t.sent[|t.sent| - 1]
    ensures forall i :: 0 < i < |t.sent| ==> t.sent[i - 1] != t.sent[i]
    decreases |inputs|
  {
    if |inputs| == 0 then Trace(s, [])
    else
      var c := Step(s, inputs[0].0, inputs[0].1);
      var rest := Run(c.state, inputs[1..]);
      if c.outcome.Sent? then
        assert c.state.previousStatus == c.outcome.message;
        Trace(rest.state, [c.outcome.message] + rest.sent)
      else
        assert c.state == s;
        rest
  }

  /** No pass with this API outcome can send from state `s`. */
  predicate Settled(s: State, api: ApiOutcome) {
    match Evaluate(api)
    case Success(Some(message)) => message == s.previousStatus
    case _ => true
  }

  predicate SameAnswer(inputs: seq<(ApiOutcome, bool)>, api: ApiOutcome) {
    forall i :: 0 <= i < |inputs| ==> inputs[i].0 == api
  }

  /** After a delivered notification, the same API outcome is settled. */
  lemma {:induction false} SentSettles(s: State, api: ApiOutcome, delivered: bool)
    ensures Step(s, api, delivered).outcome.Sent? ==> Settled(Step(s, api, delivered).state, api)
  {
    StepReports(s, api, delivered);
  }

  /** From a settled state, repeating the API outcome sends nothing and
      changes nothing. */
  lemma {:induction false} SettledRunIsQuiet(s: State, api: ApiOutcome, inputs: seq<(ApiOutcome, bool)>)
    requires Settled(s, api) && SameAnswer(inputs, api)
    ensures Run(s, inputs) == Trace(s, [])
    decreases |inputs|
  {
    if |inputs| > 0 {
      assert inputs[0].0 == api;
      assert SameAnswer(inputs[1..], api) by {
        forall i | 0 <= i < |inputs[1..]| ensures inputs[1..][i].0 == api {
          assert inputs[1..][i] == inputs[i + 1];
        }
      }
      SettledRunIsQuiet(s, api, inputs[1..]);
    }
  }

  /** Repeating the same API outcome sends at most one notification,
      however the deliveries go. */
  lemma {:induction false} SameAnswerSendsAtMostOnce(s: State, api: ApiOutcome, inputs: seq<(ApiOutcome, bool)>)
    requires SameAnswer(inputs, api)
    ensures |Run(s, inputs).sent| <= 1
    decreases |inputs|
  {
    if |inputs| > 0 {
      assert inputs[0].0 == api;
      assert SameAnswer(inputs[1..], api) by {
        forall i | 0 <= i < |inputs[1..]| ensures inputs[1..][i].0 == api {
          assert inputs[1..][i] == inputs[i + 1];
        }
      }
      var c := Step(s, api, inputs[0].1);
      if c.outcome.Sent? {
        SentSettles(s, api, inputs[0].1);
        SettledRunIsQuiet(c.state, api, inputs[1..]);
      } else {
        SameAnswerSendsAtMostOnce(s, api, inputs[1..]);
      }
    }
  }

  /** An answer holding one homework, named `name`, with status `code`. */
  function OneHomework(name: string, code: string, date: int): ApiOutcome {
    Answer(Object([
      ("homeworks", List([Object([("homework_name", Str(name)), ("status", Str(code))])])),
      ("current_date", Int(date))]))
  }

  /** An answer with one homework of known status calls for its
      notification, and its `current_date` is the date given. */
  lemma {:induction false} EvaluateOneHomework(name: string, code: string, date: int)
    requires Lookup(HomeworkVerdicts, code).Some?
    ensures Evaluate(OneHomework(name, code, date))
         == Success(Some(Message(name, Lookup(HomeworkVerdicts, code).value)))
    ensures CurrentDate(OneHomework(name, code, date)) == Int(date)
  {
    var record := Object([("homework_name", Str(name)), ("status", Str(code))]);
    var fields := [("homeworks", List([record])), ("current_date", Int(date))];
    assert fields == [("homeworks", List([record]))] + [("current_date", Int(date))];
    LookupLastBindingWins([("homeworks", List([record]))], "current_date", Int(date));
    LookupOtherKey([("homeworks", List([record]))], "current_date", Int(date), "homeworks");
    CheckResponseReturnsList([], [record]);
    assert [] + [("homework_name", Str(name)), ("status", Str(code))] == record.fields;
    ParseStatusOfRecord([], name, code);
  }

  /** A delivered pass on an answer that calls for a new notification sends
      it and moves to it and to the answer's date. */
  lemma {:induction false} StepDelivers(s: State, api: ApiOutcome, message: string)
    ensures Evaluate(api) == Success(Some(message)) && message != s.previousStatus ==>
      Step(s, api, true) == Cycle(State(message, CurrentDate(api)), Sent(message))
  {
    StepReports(s, api, true);
  }

  /** Four passes, for any two distinct known statuses: a homework given
      status `first`, the same answer again, the homework given status
      `second`, and an API failure. The first and third passes notify and
      move the cursor to their answer's date; the second and fourth leave
      the state alone. */
  lemma {:induction false} StatusChangeScenario(name: string, first: string, second: string,
                                                date1: int, date2: int, date3: int)
    requires Lookup(HomeworkVerdicts, first).Some? && Lookup(HomeworkVerdicts, second).Some?
    requires first != second
    ensures
      var m1 := Message(name, Lookup(HomeworkVerdicts, first).value);
      var m2 := Message(name, Lookup(HomeworkVerdicts, second).value);
      && Step(State("", Int(0)), OneHomework(name, first, date1), true) == Cycle(State(m1, Int(date1)), Sent(m1))
      && Step(State(m1, Int(date1)), OneHomework(name, first, date2), true) == Cycle(State(m1, Int(date1)), Unchanged)
      && Step(State(m1, Int(date1)), OneHomework(name, second, date3), true) == Cycle(State(m2, Int(date3)), Sent(m2))
      && Step(State(m2, Int(date3)), ApiFailed(ApiAnswerError), true) == Cycle(State(m2, Int(date3)), Failed(ApiAnswerError))
  {
    var m1 := Message(name, Lookup(HomeworkVerdicts, first).value);
    var m2 := Message(name, Lookup(HomeworkVerdicts, second).value);
    EvaluateOneHomework(name, first, date1);
    EvaluateOneHomework(name, first, date2);
    EvaluateOneHomework(name, second, date3);
    assert m1 != m2 by {
      MessageRoundTrip(name, first);
      MessageRoundTrip(name, second);
    }
    StepDelivers(State("", Int(0)), OneHomework(name, first, date1), m1);
    StepDelivers(State(m1, Int(date1)), OneHomework(name, second, date3), m2);
  }
}
