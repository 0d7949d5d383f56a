/** What the `main` loop promises, stated over the model of one pass and of a run. */
module BotProperties {
  import opened Wrappers
  import opened Json
  import opened Homework
  import opened Bot

  /** Every pass makes exactly one request, with `from_date` taken from the cursor or the clock. */
  lemma StepRequestsOnce(s: State, t: Tick)
    requires s.phase.Polling?
    ensures Step(s, t).requested == s.requested + [RequestParams(s.currentTimestamp, t.now)]
  {
  }

  /**
   * The cursor moves only when a status change was reported, and then to the
   * response's `current_date`; the loop keeps running exactly on the failure
   * and the status-change paths.
   */
  lemma CursorMovesOnlyOnStatusChange(s: State, t: Tick)
    requires s.phase.Polling?
    ensures Classify(t.fetch).Changed? ==> Step(s, t).currentTimestamp == t.fetch.body.fields["current_date"]
    ensures !Classify(t.fetch).Changed? ==> Step(s, t).currentTimestamp == s.currentTimestamp
    ensures Step(s, t).phase.Polling? <==> Classify(t.fetch).Failure? || Classify(t.fetch).Changed?
  {
  }

  /**
   * A caught exception is reported at loop level only when its text differs
   * from the last loop-level report, which it then replaces; the helpers'
   * own reports always go out.
   */
  lemma FailureReportedUnlessRepeated(s: State, t: Tick)
    requires s.phase.Polling?
    requires Classify(t.fetch).Failure?
    ensures var message := FailureMessage(Classify(t.fetch).error);
      Step(s, t).sent == s.sent + Classify(t.fetch).notices
                         + (if s.lastErrorMessage != message then [message] else []) &&
      Step(s, t).lastErrorMessage == message
    ensures Step(s, t).phase.Polling? && Step(s, t).currentTimestamp == s.currentTimestamp
  {
  }

  /**
   * A status change is always sent, whatever was sent before, and leaves the
   * remembered loop-level report untouched.
   */
  lemma StatusChangeAlwaysSent(s: State, t: Tick)
    requires s.phase.Polling?
    requires Classify(t.fetch).Changed?
    ensures Step(s, t).sent == s.sent + [ParseStatus(Homeworks(t.fetch.body)[0]).result.value]
    ensures Step(s, t).lastErrorMessage == s.lastErrorMessage
  {
  }

  /** The loop ends on an empty `homeworks` list with an `AssertionError`, having sent nothing. */
  lemma EmptyHomeworksEndLoop(s: State, t: Tick)
    requires s.phase.Polling?
    requires Classify(t.fetch).NoNewStatuses?
    ensures Step(s, t).phase == Halted(Crashed(AssertionError(NO_NEW_STATUSES)))
    ensures Step(s, t).sent == s.sent && Step(s, t).currentTimestamp == s.currentTimestamp
  {
  }

  /**
   * The loop ends when the first homework cannot be parsed: an undocumented
   * status escapes as `KeyError` after its one report, a non-dict homework as
   * `AttributeError` without any.
   */
  lemma UnparsableHomeworkEndsLoop(s: State, t: Tick)
    requires s.phase.Polling?
    requires Classify(t.fetch).Escaped?
    ensures var first := Homeworks(t.fetch.body)[0];
      (first.Obj? ==> Step(s, t).phase == Halted(Crashed(KeyError(UNDOCUMENTED_STATUS))) &&
                      Step(s, t).sent == s.sent + [UNDOCUMENTED_STATUS]) &&
      (!first.Obj? ==> Step(s, t).phase.Halted? && Step(s, t).phase.reason.Crashed? &&
                       Step(s, t).phase.reason.error.AttributeError? && Step(s, t).sent == s.sent)
    ensures Step(s, t).currentTimestamp == s.currentTimestamp
  {
  }

  /** Two passes failing with the same exception text give one loop-level report between them. */
  lemma RepeatedFailureReportedOnce(s: State, t1: Tick, t2: Tick)
    requires s.phase.Polling?
    requires Classify(t1.fetch).Failure? && Classify(t2.fetch).Failure?
    requires FailureMessage(Classify(t1.fetch).error) == FailureMessage(Classify(t2.fetch).error)
    requires s.lastErrorMessage != FailureMessage(Classify(t1.fetch).error)
    ensures Step(s, t1).phase.Polling?
    ensures Step(Step(s, t1), t2).sent
         == s.sent + Classify(t1.fetch).notices + [FailureMessage(Classify(t1.fetch).error)]
                   + Classify(t2.fetch).notices
  {
  }

  /**
   * A successful pass does not clear the remembered loop-level report: when
   * the same failure comes back after a reported status change, the loop
   * does not report it again, and only the helpers' reports go out.
   */
  lemma RecoveryDoesNotResetReport(s: State, t1: Tick, t2: Tick, t3: Tick)
    requires s.phase.Polling?
    requires Classify(t1.fetch).Failure? && Classify(t2.fetch).Changed? && Classify(t3.fetch).Failure?
    requires FailureMessage(Classify(t1.fetch).error) == FailureMessage(Classify(t3.fetch).error)
    ensures Step(Step(s, t1), t2).phase.Polling?
    ensures Step(Step(s, t1), t2).lastErrorMessage == FailureMessage(Classify(t1.fetch).error)
    ensures Step(Step(Step(s, t1), t2), t3).sent == Step(Step(s, t1), t2).sent + Classify(t3.fetch).notices
  {
    FailureReportedUnlessRepeated(s, t1);
    CursorMovesOnlyOnStatusChange(Step(s, t1), t2);
    StatusChangeAlwaysSent(Step(s, t1), t2);
    FailureReportedUnlessRepeated(Step(Step(s, t1), t2), t3);
  }

  /** The loop-level report of a failed request: the same text whatever the request's error was. */
  const OUTAGE_MESSAGE := FailureMessage(UnboundLocalError(UNBOUND_RESPONSE))

  /** A failed request is caught at loop level as the unbound `response`, after its own report. */
  lemma OutageClassified(fetch: Fetch)
    requires fetch.Failed?
    ensures Classify(fetch) == Failure([EndpointFailure(fetch.detail)], UnboundLocalError(UNBOUND_RESPONSE))
  {
  }

  /** Every request of these passes raised. */
  predicate AllOutages(ticks: seq<Tick>)
    decreases |ticks|
  {
    ticks == [] || (ticks[0].fetch.Failed? && AllOutages(ticks[1..]))
  }

  /** The reports `get_api_answer` makes over a run of failed requests, one per pass. */
  function OutageNotices(ticks: seq<Tick>): (r: seq<string>)
    requires AllOutages(ticks)
    ensures |r| == |ticks|
  {
    if ticks == [] then [] else [EndpointFailure(ticks[0].fetch.detail)] + OutageNotices(ticks[1..])
  }

  /** The `from_date` of each of a run of passes made while the cursor stays put. */
  function Requests(cursor: Value, ticks: seq<Tick>): (r: seq<Value>)
    ensures |r| == |ticks|
  {
    if ticks == [] then [] else [RequestParams(cursor, ticks[0].now)] + Requests(cursor, ticks[1..])
  }

  /** One more failed request during an outage that was already reported. */
  lemma OutageStep(s: State, t: Tick)
    requires s.phase.Polling? && s.lastErrorMessage == OUTAGE_MESSAGE
    requires t.fetch.Failed?
    ensures Step(s, t) == s.(sent := s.sent + [EndpointFailure(t.fetch.detail)],
                             requested := s.requested + [RequestParams(s.currentTimestamp, t.now)])
  {
  }

  /** The state after passes whose requests all raised, during an outage that was already reported. */
  function AfterOutage(s: State, ticks: seq<Tick>): State
    requires AllOutages(ticks)
    decreases |ticks|
  {
    if ticks == [] then s
    else
      AfterOutage(s.(sent := s.sent + [EndpointFailure(ticks[0].fetch.detail)],
                     requested := s.requested + [RequestParams(s.currentTimestamp, ticks[0].now)]),
                  ticks[1..])
  }

  /**
   * While the last loop-level report is already the outage report, further
   * failed requests each send only `get_api_answer`'s own report and make
   * their request, and nothing else changes.
   */
  lemma {:induction false} OutageContinues(s: State, ticks: seq<Tick>)
    requires s.phase.Polling? && s.lastErrorMessage == OUTAGE_MESSAGE
    requires AllOutages(ticks)
    ensures Run(s, ticks) == AfterOutage(s, ticks)
    decreases |ticks|
  {
    if ticks != [] {
      OutageStep(s, ticks[0]);
      OutageContinues(Step(s, ticks[0]), ticks[1..]);
    }
  }

  /** Over an outage, the chat log gains one report per pass and the request log one request per pass. */
  lemma {:induction false} AfterOutageLogs(s: State, ticks: seq<Tick>)
    requires AllOutages(ticks)
    ensures AfterOutage(s, ticks) == s.(sent := s.sent + OutageNotices(ticks),
                                        requested := s.requested + Requests(s.currentTimestamp, ticks))
    decreases |ticks|
  {
    if ticks != [] {
      var s' := s.(sent := s.sent + [EndpointFailure(ticks[0].fetch.detail)],
                   requested := s.requested + [RequestParams(s.currentTimestamp, ticks[0].now)]);
      AfterOutageLogs(s', ticks[1..]);
      assert s.sent + OutageNotices(ticks) == s'.sent + OutageNotices(ticks[1..]);
      assert s.requested + Requests(s.currentTimestamp, ticks)
          == s'.requested + Requests(s.currentTimestamp, ticks[1..]);
    }
  }

  /**
   * An outage of any length, with any error texts, yields one loop-level
   * report in all, right after the first request's own report.
   */
  lemma OutageReportedOnce(s: State, ticks: seq<Tick>)
    requires s.phase.Polling? && s.lastErrorMessage != OUTAGE_MESSAGE
    requires |ticks| >= 1
    requires AllOutages(ticks)
    ensures Run(s, ticks).sent
         == s.sent + [EndpointFailure(ticks[0].fetch.detail), OUTAGE_MESSAGE] + OutageNotices(ticks[1..])
    ensures Run(s, ticks).currentTimestamp == s.currentTimestamp && Run(s, ticks).phase.Polling?
  {
    var s' := Step(s, ticks[0]);
    OutageClassified(ticks[0].fetch);
    OutageContinues(s', ticks[1..]);
    AfterOutageLogs(s', ticks[1..]);
  }

  /**
   * Over any run, the chat log and the request log only grow, each pass that
   * ran made one request, and a run that is still polling consumed all passes.
   */
  lemma {:induction false} RunOnlyAppends(s: State, ticks: seq<Tick>)
    ensures s.sent <= Run(s, ticks).sent
    ensures s.requested <= Run(s, ticks).requested
    ensures |Run(s, ticks).requested| <= |s.requested| + |ticks|
    ensures s.phase.Polling? && Run(s, ticks).phase.Polling? ==>
      |Run(s, ticks).requested| == |s.requested| + |ticks|
    ensures !s.phase.Polling? ==> Run(s, ticks) == s
    decreases |ticks|
  {
    if ticks != [] && s.phase.Polling? {
      var s' := Step(s, ticks[0]);
      RunOnlyAppends(s', ticks[1..]);
      assert s.sent <= s'.sent;
    }
  }

  /** The first `i` passes all let the loop go on: each failed or reported a change. */
  predicate KeptPolling(ticks: seq<Tick>, i: nat)
    requires i <= |ticks|
  {
    forall j :: 0 <= j < i ==> Classify(ticks[j].fetch).Failure? || Classify(ticks[j].fetch).Changed?
  }

  /**
   * The cursor at the end of a run is the one it started with, or the
   * `current_date` of a reply, in a pass that the loop actually reached,
   * whose first homework was reported.
   */
  lemma {:induction false} CursorComesFromServer(s: State, ticks: seq<Tick>)
    ensures Run(s, ticks).currentTimestamp == s.currentTimestamp ||
      exists i :: 0 <= i < |ticks| && KeptPolling(ticks, i) && Classify(ticks[i].fetch).Changed? &&
                  Run(s, ticks).currentTimestamp == ticks[i].fetch.body.fields["current_date"]
    decreases |ticks|
  {
    if ticks != [] && s.phase.Polling? {
      var s' := Step(s, ticks[0]);
      CursorMovesOnlyOnStatusChange(s, ticks[0]);
      CursorComesFromServer(s', ticks[1..]);
      var final := Run(s, ticks).currentTimestamp;
      if final != s.currentTimestamp {
        if final == s'.currentTimestamp {
          assert Classify(ticks[0].fetch).Changed? && KeptPolling(ticks, 0);
        } else {
          assert s'.phase.Polling?;
          var i :| 0 <= i < |ticks[1..]| && KeptPolling(ticks[1..], i) && Classify(ticks[1..][i].fetch).Changed? &&
                   final == ticks[1..][i].fetch.body.fields["current_date"];
          assert ticks[1..][i] == ticks[i + 1];
          forall j | 0 <= j < i + 1
            ensures Classify(ticks[j].fetch).Failure? || Classify(ticks[j].fetch).Changed?
          {
            if j > 0 {
              assert ticks[j] == ticks[1..][j - 1];
            }
          }
          assert KeptPolling(ticks, i + 1);
        }
      }
    }
  }

  /** Without all three tokens the process stops before the loop: nothing is requested or sent. */
  lemma MissingTokensStopBeforeLoop(env: Env, now: int, ticks: seq<Tick>)
    requires !CheckTokens(env.practicumToken, env.telegramToken, env.chatId)
    ensures Run(Start(env, now), ticks) == State(Null, "", Halted(MissingTokens), [], [])
  {
  }

  /** A homework record with a name and a status code, as the API sends it. */
  function Record(name: string, code: string): Value {
    Obj(map["homework_name" := Str(name), "status" := Str(code)])
  }

  /** The three documented codes produce exactly the table's verdicts; the `approved` shortcut is never taken. */
  lemma DocumentedStatusTexts(name: string)
    ensures ParseStatus(Record(name, "approved"))
         == Outcome([], Returned(STATUS_CHANGED + " \"" + name + "\". " + APPROVED_VERDICT))
    ensures ParseStatus(Record(name, "reviewing"))
         == Outcome([], Returned(STATUS_CHANGED + " \"" + name + "\". " + REVIEWING_VERDICT))
    ensures ParseStatus(Record(name, "rejected"))
         == Outcome([], Returned(STATUS_CHANGED + " \"" + name + "\". " + REJECTED_VERDICT))
  {
  }

  /** Any other code, or a missing one, is reported once and raises `KeyError`. */
  lemma UndocumentedStatusRaises(name: string, code: string)
    requires code !in HOMEWORK_STATUSES
    ensures ParseStatus(Record(name, code)) == Outcome([UNDOCUMENTED_STATUS], Raised(KeyError(UNDOCUMENTED_STATUS)))
    ensures ParseStatus(Obj(map["homework_name" := Str(name)]))
         == Outcome([UNDOCUMENTED_STATUS], Raised(KeyError(UNDOCUMENTED_STATUS)))
  {
  }

  /** A reply with one reviewed homework reports it and moves the cursor to the reply's `current_date`. */
  lemma ReviewingScenario(s: State, now: int)
    requires s.phase.Polling?
    ensures var body := Obj(map["homeworks" := Arr([Record("hw1", "reviewing")]), "current_date" := Num(1000)]);
      var s' := Step(s, Tick(now, Reply(200, body)));
      s'.sent == s.sent + [STATUS_CHANGED + " \"" + "hw1" + "\". " + REVIEWING_VERDICT] &&
      s'.currentTimestamp == Num(1000) && s'.phase.Polling? && s'.lastErrorMessage == s.lastErrorMessage
  {
  }

  /** A reply with no homeworks sends nothing, leaves the cursor, and ends the loop. */
  lemma EmptyReplyScenario(s: State, now: int)
    requires s.phase.Polling?
    ensures var body := Obj(map["homeworks" := Arr([]), "current_date" := Num(1000)]);
      var s' := Step(s, Tick(now, Reply(200, body)));
      s'.sent == s.sent && s'.currentTimestamp == s.currentTimestamp &&
      s'.phase == Halted(Crashed(AssertionError(NO_NEW_STATUSES)))
  {
  }

  /** Two failed requests right after start, with the same error text, send three messages in all. */
  lemma TwoTransportFailuresScenario(env: Env, start: int, now1: int, now2: int, detail: string)
    requires CheckTokens(env.practicumToken, env.telegramToken, env.chatId)
    ensures Run(Start(env, start), [Tick(now1, Failed(detail)), Tick(now2, Failed(detail))]).sent
         == [EndpointFailure(detail), OUTAGE_MESSAGE, EndpointFailure(detail)]
  {
    var ticks := [Tick(now1, Failed(detail)), Tick(now2, Failed(detail))];
    assert AllOutages(ticks);
    OutageReportedOnce(Start(env, start), ticks);
    assert ticks[1..] == [Tick(now2, Failed(detail))];
  }
}
