/** The part of the Telegram API (package tg) that the bot uses. */
module Telegram {
  import opened Wrappers

  /** An inline query typed by a user: `@bot <query>`. */
  datatype UpdateBotInlineQuery = UpdateBotInlineQuery(queryID: int, userID: int, query: string)

  /** A bold span of a message, in characters. */
  datatype MessageEntity = MessageEntityBold(offset: int, length: int)

  datatype InputBotInlineMessageText =
    InputBotInlineMessageText(noWebpage: bool, message: string, entities: seq<MessageEntity>)

  /** One inline result; `kind` is the TL field `type`. */
  datatype InputBotInlineResult = InputBotInlineResult(
    id: string,
    kind: string,
    title: string,
    description: string,
    sendMessage: InputBotInlineMessageText)

  datatype MessagesSetInlineBotResultsRequest =
    MessagesSetInlineBotResultsRequest(queryID: int, results: seq<InputBotInlineResult>)

  /**
   * The RPC client. `respond` says whether the server accepts a request
   * (None) or fails it with an error text; `requests` records every request
   * submitted, in order (a record of the model, not state of
   * the source's client).
   */
  class Client {
    const respond: MessagesSetInlineBotResultsRequest -> Option<string>
    ghost var requests: seq<MessagesSetInlineBotResultsRequest>

    constructor (respond: MessagesSetInlineBotResultsRequest -> Option<string>)
      ensures this.respond == respond && requests == []
    {
      this.respond := respond;
      requests := [];
    }

    method MessagesSetInlineBotResults(req: MessagesSetInlineBotResultsRequest) returns (err: Option<string>)
      modifies this
      ensures requests == old(requests) + [req]
      ensures err == respond(req)
    {
      requests := requests + [req];
      err := respond(req);
    }
  }
}
