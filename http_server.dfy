/**
 * The Express server on port 3123: three POST routes over one
 * `LineAutomation`, their 400 checks on the JSON body, and the 500 answer
 * for anything thrown. The JSON body parser and the transport are outside
 * the model; a body field that is missing or null is `None`.
 */
module HttpServer {
  import opened Wrappers
  import opened Actions
  import opened Orchestrator

  const Port: nat := 3123

  /** The fields the routes destructure from `req.body`. */
  datatype Body = Body(chatName: Option<string>, message: Option<string>)

  /** JavaScript truthiness of a string field: present and not empty. */
  predicate Truthy(field: Option<string>) {
    field.Some? && field.value != ""
  }

  /** The JSON objects the routes answer with. */
  datatype Json =
    | ErrorOnly(error: string)                                    // { error }
    | HistoryOk(chatName: string, chatHistory: Option<string>)    // { success: true, chatName, chatHistory }
    | SendOk(chatName: string, message: string, timestamp: string) // { success: true, chatName, message, timestamp }
    | Failed(error: string)                                       // { success: false, error }

  datatype Response = Response(status: nat, body: Json)

  /** `POST /get_chat_history` once `getChatHistory` has answered (or
      thrown). The history is passed on whole, null included. */
  function HistoryRoute(body: Body, history: Result<Option<string>, string>): (r: Response)
    ensures !Truthy(body.chatName) ==> r == Response(400, ErrorOnly("chatName is required"))
    ensures Truthy(body.chatName) && history.Success? ==>
      r == Response(200, HistoryOk(body.chatName.value, history.value))
    ensures Truthy(body.chatName) && history.Failure? ==> r == Response(500, Failed(history.error))
  {
    if !Truthy(body.chatName) then Response(400, ErrorOnly("chatName is required"))
    else match history
      case Success(h) => Response(200, HistoryOk(body.chatName.value, h))
      case Failure(e) => Response(500, Failed(e))
  }

  /** `POST /send_message_manual` and `/send_message_auto` once
      `sendChatMessage` has answered (or thrown). The backend's result is
      not looked at: any answer is a 200 with `success: true`. */
  function SendRoute(body: Body, sent: Result<ActionResult, string>, nowIso: string): (r: Response)
    ensures !Truthy(body.chatName) || !Truthy(body.message) ==>
      r == Response(400, ErrorOnly("chatName and message are required"))
    ensures Truthy(body.chatName) && Truthy(body.message) && sent.Success? ==>
      r == Response(200, SendOk(body.chatName.value, body.message.value, nowIso))
    ensures Truthy(body.chatName) && Truthy(body.message) && sent.Failure? ==>
      r == Response(500, Failed(sent.error))
  {
    if !Truthy(body.chatName) || !Truthy(body.message) then
      Response(400, ErrorOnly("chatName and message are required"))
    else match sent
      case Success(_) => Response(200, SendOk(body.chatName.value, body.message.value, nowIso))
      case Failure(e) => Response(500, Failed(e))
  }

  /** A send that the backend reports as failed still answers 200 with
      `success: true`: the two results that differ only in `success` give
      the same response. */
  lemma SendIgnoresResult(body: Body, a: ActionResult, b: ActionResult, nowIso: string)
    ensures SendRoute(body, Success(a), nowIso) == SendRoute(body, Success(b), nowIso)
    ensures Truthy(body.chatName) && Truthy(body.message) ==>
      SendRoute(body, Success(ActionResult(false, Some("x"))), nowIso).status == 200
  {
  }

  /** The routes' status codes: 400 exactly on a bad body, 500 exactly on
      an error thrown further down, 200 otherwise. */
  lemma StatusCodes(body: Body, history: Result<Option<string>, string>, sent: Result<ActionResult, string>, nowIso: string)
    ensures HistoryRoute(body, history).status == 400 <==> !Truthy(body.chatName)
    ensures HistoryRoute(body, history).status == 500 <==> Truthy(body.chatName) && history.Failure?
    ensures SendRoute(body, sent, nowIso).status == 400 <==> !Truthy(body.chatName) || !Truthy(body.message)
    ensures SendRoute(body, sent, nowIso).status == 500 <==>
      Truthy(body.chatName) && Truthy(body.message) && sent.Failure?
  {
  }

  /** The defaults `getChatHistory(chatName)` runs with: ten page-ups. */
  const DefaultPageUps: nat := 10

  class HttpApp {
    const lineAutomation: LineAutomation

    constructor (lineAutomation: LineAutomation)
      ensures this.lineAutomation == lineAutomation
    {
      this.lineAutomation := lineAutomation;
    }

    /** `POST /get_chat_history`: a body without a chat name makes no
        backend call. */
    method GetChatHistory(body: Body, env: LogEnv) returns (r: Response)
      modifies lineAutomation, lineAutomation.automation
      ensures var b := lineAutomation.automation;
        if !Truthy(body.chatName) then
          && r == Response(400, ErrorOnly("chatName is required"))
          && b.trace == old(b.trace) && lineAutomation.logs == old(lineAutomation.logs)
        else
          var o := HistoryOutcome(b.platform, b.answers, |old(b.trace)|, body.chatName.value);
          && b.trace == old(b.trace) + HistoryCalls(body.chatName.value, DefaultPageUps)[..o.made]
          && lineAutomation.logs == old(lineAutomation.logs) + Written(env, body.chatName.value, o.result)
          && r == HistoryRoute(body, o.result)
    {
      if !Truthy(body.chatName) {
        return Response(400, ErrorOnly("chatName is required"));
      }
      var chatHistory := lineAutomation.GetChatHistory(body.chatName.value, None, 100, DefaultPageUps, env);
      r := HistoryRoute(body, chatHistory);
    }

    /** `POST /send_message_manual` (`autoSend` false) and
        `POST /send_message_auto` (`autoSend` true). */
    method SendMessage(body: Body, autoSend: bool, nowIso: string) returns (r: Response)
      modifies lineAutomation.automation
      ensures var b := lineAutomation.automation;
        if !Truthy(body.chatName) || !Truthy(body.message) then
          && r == Response(400, ErrorOnly("chatName and message are required"))
          && b.trace == old(b.trace)
        else
          var o := SendOutcome(b.platform, b.answers, |old(b.trace)|, body.chatName.value);
          && b.trace == old(b.trace) + SendCalls(body.chatName.value, body.message.value, autoSend)[..o.made]
          && r == SendRoute(body, o.result, nowIso)
    {
      if !Truthy(body.chatName) || !Truthy(body.message) {
        return Response(400, ErrorOnly("chatName and message are required"));
      }
      var result := lineAutomation.SendChatMessage(body.chatName.value, body.message.value, autoSend);
      r := SendRoute(body, result, nowIso);
    }
  }
}
