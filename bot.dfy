/**
 * The bot's `main` loop.  Its local state is the poll cursor
 * `current_timestamp` and the persistent `LAST_ERROR_MESSAGE`; what it does is
 * observed through the messages handed to the chat and the `from_date` of
 * every request.  Each pass of `while True` consumes one `Tick`: the clock
 * reading and the outcome of the request.  The loop ends only when an
 * exception escapes it.
 */
module Bot {
  import opened Wrappers
  import opened Json
  import opened Homework

  /** The three configuration values read from the environment. */
  datatype Env = Env(practicumToken: Option<string>, telegramToken: Option<string>, chatId: Option<string>)

  /** One pass of the loop: what `time.time()` returned at line 58 and what the request gave. */
  datatype Tick = Tick(now: int, fetch: Fetch)

  /** Why the process stopped: `SystemExit` before the loop, or an exception that escaped it. */
  datatype Halt = MissingTokens | Crashed(error: Error)

  datatype Phase = Polling | Halted(reason: Halt)

  datatype State = State(
    currentTimestamp: Value,
    lastErrorMessage: string,
    phase: Phase,
    sent: seq<string>,
    requested: seq<Value>)

  /** Lines 148-154: without all three tokens nothing is sent and no request is made. */
  function Start(env: Env, now: int): (s: State)
    ensures s.sent == [] && s.requested == [] && s.lastErrorMessage == ""
    ensures s.phase.Polling? <==> IsSet(env.practicumToken) && IsSet(env.telegramToken) && IsSet(env.chatId)
    ensures s.phase.Polling? ==> s.currentTimestamp == Num(now)
    ensures !s.phase.Polling? ==> s.phase == Halted(MissingTokens)
  {
    if !CheckTokens(env.practicumToken, env.telegramToken, env.chatId) then
      State(Null, "", Halted(MissingTokens), [], [])
    else
      State(Num(now), "", Polling, [], [])
  }

  /** How one pass of the loop ends, with the messages the helpers sent on the way. */
  datatype Cycle =
    | Failure(notices: seq<string>, error: Error)               // the `except` branch, lines 160-166
    | NoNewStatuses(notices: seq<string>)                       // lines 168-171: raises, ends the loop
    | Escaped(notices: seq<string>, error: Error)                // line 173: `parse_status` raised
    | Changed(notices: seq<string>, message: string, currentDate: Value)  // lines 173-175

  /** The homeworks list of a response that `check_response` accepts. */
  function Homeworks(response: Value): seq<Value>
    requires IsValidResponse(response)
  {
    response.fields["homeworks"].items
  }

  /** The lines 157-175 decision: which way a pass goes, for a given request outcome. */
  function Classify(fetch: Fetch): Cycle
  {
    var answer := GetApiAnswer(fetch);
    match answer.result
    case Raised(e) => Failure(answer.sent, e)
    case Returned(response) => ClassifyResponse(response)
  }

  /** Lines 159-175 for a body that `get_api_answer` returned (after sending nothing). */
  function ClassifyResponse(response: Value): Cycle
  {
    var checked := CheckResponse(response);
    match checked.result
    case Raised(e) => Failure(checked.sent, e)
    case Returned(homeworks) =>
      if homeworks == [] then
        NoNewStatuses(checked.sent)
      else
        var parsed := ParseStatus(homeworks[0]);
        match parsed.result
        case Raised(e) => Escaped(checked.sent + parsed.sent, e)
        case Returned(message) => Changed(checked.sent + parsed.sent, message, response.fields["current_date"])
  }

  /**
   * A pass fails exactly when the reply is not a 200 with a valid shape;
   * otherwise it stops on an empty list or an undocumented first homework,
   * and reports a change exactly for a documented one.
   */
  lemma ClassifyCases(fetch: Fetch)
    ensures Classify(fetch).Failure? <==> !(fetch.Reply? && fetch.statusCode == HTTP_OK && IsValidResponse(fetch.body))
    ensures Classify(fetch).Failure? ==> |Classify(fetch).notices| == 1
    ensures Classify(fetch).NoNewStatuses? <==>
      fetch.Reply? && fetch.statusCode == HTTP_OK && IsValidResponse(fetch.body) && Homeworks(fetch.body) == []
    ensures Classify(fetch).Escaped? <==>
      fetch.Reply? && fetch.statusCode == HTTP_OK && IsValidResponse(fetch.body) &&
      Homeworks(fetch.body) != [] && !IsDocumented(Homeworks(fetch.body)[0])
    ensures Classify(fetch).Changed? <==>
      fetch.Reply? && fetch.statusCode == HTTP_OK && IsValidResponse(fetch.body) &&
      Homeworks(fetch.body) != [] && IsDocumented(Homeworks(fetch.body)[0])
    ensures Classify(fetch).NoNewStatuses? || Classify(fetch).Changed? ==> Classify(fetch).notices == []
    ensures Classify(fetch).Changed? ==>
      Classify(fetch).currentDate == fetch.body.fields["current_date"] &&
      Classify(fetch).message == ParseStatus(Homeworks(fetch.body)[0]).result.value
  {
  }

  /** The loop-level report of an exception caught at line 160. */
  function FailureMessage(e: Error): string {
    PROGRAM_FAILURE_PREFIX + ErrorText(e)
  }

  /** Lines 161-165: report `message` unless it equals the last loop-level report, and remember it. */
  function Report(s: State, message: string): (s': State)
    ensures s'.lastErrorMessage == message
    ensures s'.sent == s.sent + SendIfNew(s.lastErrorMessage, message)
    ensures s'.currentTimestamp == s.currentTimestamp && s'.phase == s.phase && s'.requested == s.requested
  {
    if s.lastErrorMessage != message then
      s.(lastErrorMessage := message, sent := s.sent + [message])
    else
      s
  }

  /** One pass of `while True`, from a state in which the loop is running. */
  function Step(s: State, t: Tick): (s': State)
    requires s.phase.Polling?
  {
    var s1 := s.(requested := s.requested + [RequestParams(s.currentTimestamp, t.now)]);
    match Classify(t.fetch)
    case Failure(notices, e) =>
      Report(s1.(sent := s1.sent + notices), FailureMessage(e))
    case NoNewStatuses(notices) =>
      s1.(sent := s1.sent + notices, phase := Halted(Crashed(AssertionError(NO_NEW_STATUSES))))
    case Escaped(notices, e) =>
      s1.(sent := s1.sent + notices, phase := Halted(Crashed(e)))
    case Changed(notices, message, currentDate) =>
      s1.(sent := s1.sent + notices + [message], currentTimestamp := currentDate)
  }

  /** The loop run over the given passes, until they run out or the loop ends. */
  function Run(s: State, ticks: seq<Tick>): State
    decreases |ticks|
  {
    if ticks == [] || !s.phase.Polling? then s else Run(Step(s, ticks[0]), ticks[1..])
  }

  /**
   * One pass of the loop body, lines 157-176, on `main`'s local variables;
   * `phase` says whether an exception escaped the pass.
   */
  method Pass(currentTimestamp: Value, lastErrorMessage: string, sent: seq<string>,
              requested: seq<Value>, tick: Tick)
    returns (currentTimestamp': Value, lastErrorMessage': string, phase: Phase,
             sent': seq<string>, requested': seq<Value>)
    ensures State(currentTimestamp', lastErrorMessage', phase, sent', requested')
         == Step(State(currentTimestamp, lastErrorMessage, Polling, sent, requested), tick)
  {
    currentTimestamp', lastErrorMessage', phase, sent' := currentTimestamp, lastErrorMessage, Polling, sent;
    requested' := requested + [RequestParams(currentTimestamp, tick.now)];
    ClassifyCases(tick.fetch);
    var failure: Option<Error> := None;
    var answer := GetApiAnswer(tick.fetch);
    sent' := sent' + answer.sent;
    if answer.result.Raised? {
      failure := Some(answer.result.error);
    } else {
      var response := answer.result.value;
      var checked := CheckResponse(response);
      sent' := sent' + checked.sent;
      if checked.result.Raised? {
        failure := Some(checked.result.error);
      } else {
        var homeworks := checked.result.value;
        if homeworks == [] {
          phase := Halted(Crashed(AssertionError(NO_NEW_STATUSES)));
        } else {
          var parsed := ParseStatus(homeworks[0]);
          sent' := sent' + parsed.sent;
          if parsed.result.Raised? {
            phase := Halted(Crashed(parsed.result.error));
          } else {
            sent' := sent' + [parsed.result.value];
            currentTimestamp' := response.fields["current_date"];
          }
        }
      }
    }
    if failure.Some? {
      var message := FailureMessage(failure.value);
      if lastErrorMessage' != message {
        lastErrorMessage' := message;
        sent' := sent' + [message];
      }
    }
  }

  /**
   * `main`, with the environment, the clock reading of line 154 and the passes
   * of the loop as inputs.
   */
  method Serve(env: Env, startTime: int, ticks: seq<Tick>) returns (final: State)
    ensures final == Run(Start(env, startTime), ticks)
  {
    var lastErrorMessage := "";
    var sent: seq<string> := [];
    var requested: seq<Value> := [];
    if !CheckTokens(env.practicumToken, env.telegramToken, env.chatId) {
      return State(Null, lastErrorMessage, Halted(MissingTokens), sent, requested);
    }
    var currentTimestamp := Num(startTime);
    var phase := Polling;
    var i := 0;
    while i < |ticks| && phase.Polling?
      invariant 0 <= i <= |ticks|
      invariant Run(State(currentTimestamp, lastErrorMessage, phase, sent, requested), ticks[i..])
             == Run(Start(env, startTime), ticks)
    {
      assert ticks[i..][0] == ticks[i] && ticks[i..][1..] == ticks[i + 1..];
      currentTimestamp, lastErrorMessage, phase, sent, requested :=
        Pass(currentTimestamp, lastErrorMessage, sent, requested, ticks[i]);
      i := i + 1;
    }
    final := State(currentTimestamp, lastErrorMessage, phase, sent, requested);
  }
}
