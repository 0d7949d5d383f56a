/**
 * The decision logic of the homework-status bot's helper functions.
 *
 * Each Python function that may call `send_message` and then raise is modelled
 * as a pure function returning an `Outcome`: the messages it handed to the
 * chat, in order, and either the value it returned or the exception it raised.
 * `send_message` itself never raises (it catches and logs every delivery
 * failure), so handing a message over is just appending it to `sent`.
 */
module Homework {
  import opened Wrappers
  import opened Json

  /** Seconds slept between two polls; sleeping has no observable effect in the model. */
  const RETRY_TIME := 600
  const HTTP_OK := 200

  const APPROVED_VERDICT := "Работа проверена: ревьюеру всё понравилось. Ура!"
  const REVIEWING_VERDICT := "Работа взята на проверку ревьюером."
  const REJECTED_VERDICT := "Работа проверена: у ревьюера есть замечания."

  /** The closed table of documented review statuses and their verdict texts. */
  const HOMEWORK_STATUSES: map<string, string> :=
    map["approved" := APPROVED_VERDICT,
        "reviewing" := REVIEWING_VERDICT,
        "rejected" := REJECTED_VERDICT]

  const ENDPOINT_FAILURE_PREFIX := "Сбой при доступе к эндпоинту. Ошибка: "
  const ENDPOINT_UNAVAILABLE := "Эндпоинт недоступен"
  const NOT_A_DICT := "Ответ не является словарем"
  const MISSING_KEYS := "В ответе нет необходимых ключей"
  const SERVER_UNAVAILABLE := "Сервер недоступен"
  const UNDOCUMENTED_STATUS := "Недокументированный статус домашней работы"
  const STATUS_CHANGED := "Изменился статус проверки работы"
  const NO_NEW_STATUSES := "Отсутствуют в ответе новые статусы"
  const PROGRAM_FAILURE_PREFIX := "Сбой в работе программы: "

  /**
   * What the interpreter says when `response.status_code` is read while the
   * local `response` was never bound; the exact wording depends on the Python
   * version, and only its being one fixed text matters to the bot.
   */
  const UNBOUND_RESPONSE := "cannot access local variable 'response' where it is not associated with a value"

  /** The exceptions the core raises, each with the argument it was built from. */
  datatype Error =
    | TypeError(msg: string)
    | KeyError(msg: string)
    | AssertionError(msg: string)
    | UnboundLocalError(msg: string)
    | AttributeError(msg: string)

  /**
   * `str(error)`: the other exceptions show their argument as is; a `KeyError`
   * shows the `repr` of its argument, which is the argument in single quotes
   * for a text without quotes, backslashes or unprintable characters. The only
   * `KeyError` that reaches the loop carries `MISSING_KEYS`, which is such a text.
   */
  function ErrorText(e: Error): (r: string)
    ensures e.KeyError? ==> r == "'" + e.msg + "'"
    ensures !e.KeyError? ==> r == e.msg
  {
    match e
    case KeyError(m) => "'" + m + "'"
    case TypeError(m) => m
    case AssertionError(m) => m
    case UnboundLocalError(m) => m
    case AttributeError(m) => m
  }

  datatype Result<T> = Returned(value: T) | Raised(error: Error)

  /** The messages a call handed to `send_message`, and how the call ended. */
  datatype Outcome<T> = Outcome(sent: seq<string>, result: Result<T>)

  /**
   * The guard `if LAST_ERROR_MESSAGE != message: LAST_ERROR_MESSAGE = message;
   * send_message(...)`: the message is handed over exactly when it differs from
   * the remembered one.
   */
  function SendIfNew(last: string, message: string): (sent: seq<string>)
    ensures |sent| <= 1
    ensures sent != [] <==> last != message
    ensures sent != [] ==> sent[0] == message
  {
    if last != message then [message] else []
  }

  /**
   * The three helper functions start their guard from a fresh local `''`, so
   * for any of their (non-empty) messages the guard never suppresses.
   */
  lemma FreshGuardAlwaysSends(message: string)
    requires message != ""
    ensures SendIfNew("", message) == [message]
  {
  }

  /** What `get_api_answer` sends when the request fails, for a given `str(error)`. */
  function EndpointFailure(detail: string): string {
    ENDPOINT_FAILURE_PREFIX + detail
  }

  /** The outcome of `requests.get`: an exception, or a reply with its status code and decoded body. */
  datatype Fetch =
    | Failed(detail: string)
    | Reply(statusCode: int, body: Value)

  /** Line 58: `current_timestamp or int(time.time())`, the value of `from_date`. */
  function RequestParams(currentTimestamp: Value, now: int): (fromDate: Value)
    ensures Truthy(currentTimestamp) ==> fromDate == currentTimestamp
    ensures !Truthy(currentTimestamp) ==> fromDate == Num(now)
  {
    if Truthy(currentTimestamp) then currentTimestamp else Num(now)
  }

  /**
   * `get_api_answer` from the request onward.  A failed request is reported,
   * but `response` stays unbound, so the status check that follows raises
   * `UnboundLocalError`; a reply other than 200 is reported and raises
   * `AssertionError`; a 200 reply returns its body.
   */
  function GetApiAnswer(fetch: Fetch): (out: Outcome<Value>)
    ensures fetch.Failed? ==>
      out == Outcome([EndpointFailure(fetch.detail)], Raised(UnboundLocalError(UNBOUND_RESPONSE)))
    ensures fetch.Reply? && fetch.statusCode != HTTP_OK ==>
      out == Outcome([ENDPOINT_UNAVAILABLE], Raised(AssertionError(ENDPOINT_UNAVAILABLE)))
    ensures out.result.Returned? <==> fetch.Reply? && fetch.statusCode == HTTP_OK
    ensures out.result.Returned? ==> out.sent == [] && out.result.value == fetch.body
    ensures out.result.Raised? <==> |out.sent| == 1
  {
    var lastErrorMessage := "";
    var (sentOnFailure, responseBound) :=
      match fetch
      case Failed(detail) => (SendIfNew(lastErrorMessage, EndpointFailure(detail)), false)
      case Reply(_, _) => ([], true);
    if !responseBound then
      Outcome(sentOnFailure, Raised(UnboundLocalError(UNBOUND_RESPONSE)))
    else if fetch.statusCode != HTTP_OK then
      Outcome(SendIfNew(lastErrorMessage, ENDPOINT_UNAVAILABLE), Raised(AssertionError(ENDPOINT_UNAVAILABLE)))
    else
      Outcome([], Returned(fetch.body))
  }

  /** Both keys `check_response` insists on are present. */
  predicate HasRequiredKeys(fields: map<string, Value>) {
    "homeworks" in fields && "current_date" in fields
  }

  /** The shape `check_response` accepts: a dict with both keys whose `homeworks` is a list. */
  predicate IsValidResponse(response: Value) {
    response.Obj? && HasRequiredKeys(response.fields) && response.fields["homeworks"].Arr?
  }

  /**
   * `check_response`: three checks, strictly in this order — not a dict, a
   * missing key, `homeworks` not a list — each reporting once and raising; a
   * response that passes all three yields its `homeworks` list unchanged.
   */
  function CheckResponse(response: Value): (out: Outcome<seq<Value>>)
    ensures !response.Obj? ==>
      out == Outcome([NOT_A_DICT], Raised(TypeError(NOT_A_DICT)))
    ensures response.Obj? && !HasRequiredKeys(response.fields) ==>
      out == Outcome([MISSING_KEYS], Raised(KeyError(MISSING_KEYS)))
    ensures response.Obj? && HasRequiredKeys(response.fields) && !response.fields["homeworks"].Arr? ==>
      out == Outcome([SERVER_UNAVAILABLE], Raised(TypeError(SERVER_UNAVAILABLE)))
    ensures (out.result.Raised? && out.result.error.KeyError?) <==>
      response.Obj? && !HasRequiredKeys(response.fields)
    ensures out.result.Returned? <==> IsValidResponse(response)
    ensures out.result.Returned? ==>
      out.sent == [] && Arr(out.result.value) == response.fields["homeworks"]
    ensures out.result.Raised? <==> |out.sent| == 1
  {
    var lastErrorMessage := "";
    if !response.Obj? then
      Outcome(SendIfNew(lastErrorMessage, NOT_A_DICT), Raised(TypeError(NOT_A_DICT)))
    else if !("homeworks" in response.fields) || !("current_date" in response.fields) then
      Outcome(SendIfNew(lastErrorMessage, MISSING_KEYS), Raised(KeyError(MISSING_KEYS)))
    else
      match Get(response.fields, "homeworks")
      case Some(Arr(homeworks)) => Outcome([], Returned(homeworks))
      case _ => Outcome(SendIfNew(lastErrorMessage, SERVER_UNAVAILABLE), Raised(TypeError(SERVER_UNAVAILABLE)))
  }

  /**
   * `HOMEWORK_STATUSES[homework_status]` on what `homework.get('status')`
   * gave: the verdict for a documented code, `None` for everything that makes
   * the subscript raise (a missing key, an unknown or non-string code).
   */
  function Verdict(status: Option<Value>): (r: Option<string>)
    ensures r.Some? <==> status.Some? && status.value.Str? && status.value.s in HOMEWORK_STATUSES
    ensures r.Some? ==> r.value == HOMEWORK_STATUSES[status.value.s]
  {
    match status
    case Some(Str(code)) => if code in HOMEWORK_STATUSES then Some(HOMEWORK_STATUSES[code]) else None
    case _ => None
  }

  /** A dict whose `status` is one of the three documented codes. */
  predicate IsDocumented(homework: Value) {
    homework.Obj? && Verdict(Get(homework.fields, "status")).Some?
  }

  /** The notification for a documented homework, as the else-branch of `parse_status` formats it. */
  function StatusMessage(name: Option<Value>, verdict: string): string {
    STATUS_CHANGED + " \"" + Format(name) + "\". " + verdict
  }

  /** No verdict text equals the status code `'approved'`. */
  lemma NoVerdictIsApprovedCode()
    ensures forall code :: code in HOMEWORK_STATUSES ==> HOMEWORK_STATUSES[code] != "approved"
  {
  }

  /**
   * `parse_status`.  A homework that is not a dict has no `.get`; a dict with
   * an undocumented status is reported once and raises `KeyError`; otherwise
   * the status-change text is built.  The branch comparing the verdict with
   * `'approved'` compares a verdict text with a status code and never fires.
   */
  function ParseStatus(homework: Value): (out: Outcome<string>)
    ensures !homework.Obj? ==>
      out.sent == [] && out.result.Raised? && out.result.error.AttributeError?
    ensures homework.Obj? && !IsDocumented(homework) ==>
      out == Outcome([UNDOCUMENTED_STATUS], Raised(KeyError(UNDOCUMENTED_STATUS)))
    ensures out.result.Returned? <==> IsDocumented(homework)
    ensures out.result.Returned? ==>
      out.sent == [] &&
      out.result.value == StatusMessage(Get(homework.fields, "homework_name"),
                                        HOMEWORK_STATUSES[homework.fields["status"].s])
  {
    if !homework.Obj? then
      Outcome([], Raised(AttributeError("'" + TypeName(homework) + "' object has no attribute 'get'")))
    else
      var lastErrorMessage := "";
      var homeworkName := Get(homework.fields, "homework_name");
      var homeworkStatus := Get(homework.fields, "status");
      match Verdict(homeworkStatus)
      case None =>
        Outcome(SendIfNew(lastErrorMessage, UNDOCUMENTED_STATUS), Raised(KeyError(UNDOCUMENTED_STATUS)))
      case Some(verdict) =>
        NoVerdictIsApprovedCode();
        if verdict == "approved" then
          Outcome([], Returned(APPROVED_VERDICT))
        else
          Outcome([], Returned(StatusMessage(homeworkName, verdict)))
  }

  /** A configuration value that is set and non-empty, i.e. truthy in Python. */
  predicate IsSet(value: Option<string>) {
    value.Some? && value.value != ""
  }

  /** Python's `all(values)` over optional strings. */
  function All(values: seq<Option<string>>): (r: bool)
    ensures r <==> forall i :: 0 <= i < |values| ==> IsSet(values[i])
  {
    if values == [] then true else IsSet(values[0]) && All(values[1..])
  }

  /**
   * `check_tokens`: true exactly when the Practicum token, the Telegram token
   * (read from the variable `TOKEN`) and the chat id are all set and non-empty.
   */
  function CheckTokens(practicumToken: Option<string>, telegramToken: Option<string>,
                       chatId: Option<string>): (ok: bool)
    ensures ok <==> IsSet(practicumToken) && IsSet(telegramToken) && IsSet(chatId)
  {
    var values := [practicumToken, telegramToken, chatId];
    assert values[0] == practicumToken && values[1] == telegramToken && values[2] == chatId;
    All(values)
  }
}
