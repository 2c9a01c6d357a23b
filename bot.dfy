/**
 * The inline-query bot of bot/bot.go: it forwards the text of an inline
 * query to the neural-network runner and answers with the query followed by
 * the generated continuation, the continuation in bold.
 *
 * Text is a sequence of Unicode scalar values, so the rune count of a (valid
 * UTF-8) Go string is the length of the sequence.
 */
module Bot {
  import opened Wrappers
  import Runner
  import opened Telegram

  /** The errors the bot returns, as Go error values. */
  datatype Error =
    | NetFailure(text: string)             // an error returned by the runner
    | ResultIsEmpty                        // ErrResultIsEmpty
    | RpcFailure(text: string)             // an error returned by MessagesSetInlineBotResults
    | Wrap(context: string, inner: Error)  // fmt.Errorf / xerrors.Errorf("<context>: %w", inner)

  const ResultIsEmptyText := "result is empty"
  const NeuralNetworkContext := "failed to query neural network"
  const QueryNetContext := "query net"
  const ResultKind := "article"
  const ResultTitle := "Результат:"

  /** errors.Is: `target` is on the chain of errors that `e` wraps. */
  predicate Is(e: Error, target: Error)
  {
    e == target || (e.Wrap? && Is(e.inner, target))
  }

  /** e.Error(): the text of an error; "%w" prints the wrapped error after ": ". */
  function Message(e: Error): string
  {
    match e
    case NetFailure(t) => t
    case ResultIsEmpty => ResultIsEmptyText
    case RpcFailure(t) => t
    case Wrap(c, inner) => c + ": " + Message(inner)
  }

  predicate IsSuffix(t: string, s: string)
  {
    |t| <= |s| && s[|s| - |t|..] == t
  }

  /** Wrapping keeps the text of every wrapped error: it ends the message. */
  lemma {:induction false} WrappedMessageIsSuffix(e: Error, target: Error)
    requires Is(e, target)
    ensures IsSuffix(Message(target), Message(e))
  {
    if e != target {
      WrappedMessageIsSuffix(e.inner, target);
      var c, m, t := e.context + ": ", Message(e.inner), Message(target);
      assert Message(e) == c + m;
      assert (c + m)[|c + m| - |t|..] == m[|m| - |t|..];
    }
  }

  /**
   * randLength for the value `draw` that mathrand.Intn(maxLength - minLength)
   * returned, which lies in [0, maxLength - minLength).
   */
  function LengthFromDraw(minLength: int, maxLength: int, draw: int): (n: int)
    requires 0 <= draw < maxLength - minLength
    ensures minLength <= n < maxLength
  {
    draw + minLength
  }

  /** Every length in [minLength, maxLength) comes from exactly one draw of Intn. */
  lemma EveryLengthDrawnOnce(minLength: int, maxLength: int, n: int)
    requires minLength <= n < maxLength
    ensures exists draw :: 0 <= draw < maxLength - minLength && LengthFromDraw(minLength, maxLength, draw) == n
    ensures forall draw :: 0 <= draw < maxLength - minLength && LengthFromDraw(minLength, maxLength, draw) == n ==>
      draw == n - minLength
  {
    assert LengthFromDraw(minLength, maxLength, n - minLength) == n;
  }

  /** How `query` turns what the runner answered into a reply or an error. */
  function ExtractReply(o: Runner.Outcome): (r: Result<string, Error>)
    ensures r.Ok? <==> o.Ok? && |o.value.replies| > 0
    ensures r.Ok? ==> r.value == o.value.replies[0]
    ensures o.Err? ==>
              Is(r.error, NetFailure(o.error)) && Message(r.error) == NeuralNetworkContext + ": " + o.error
    ensures o.Ok? && |o.value.replies| == 0 ==>
              Is(r.error, ResultIsEmpty) && Message(r.error) == NeuralNetworkContext + ": " + ResultIsEmptyText
  {
    match o
    case Err(e) => Err(Wrap(NeuralNetworkContext, NetFailure(e)))
    case Ok(result) =>
      if |result.replies| < 1 then Err(Wrap(NeuralNetworkContext, ResultIsEmpty))
      else Ok(result.replies[0])
  }

  /**
   * The request `sendAnswer` submits for the inline query `u` once the runner
   * produced `answer`; `hash` stands for hex(sha256(text)).
   */
  function InlineAnswer(u: UpdateBotInlineQuery, answer: string, hash: string -> string)
    : (req: MessagesSetInlineBotResultsRequest)
    ensures req.queryID == u.queryID && |req.results| == 1
    ensures req.results[0].id == hash(u.query)
    ensures req.results[0].kind == ResultKind && req.results[0].title == ResultTitle
    ensures req.results[0].description == req.results[0].sendMessage.message == u.query + answer
    ensures req.results[0].sendMessage.noWebpage
    ensures |req.results[0].sendMessage.entities| == 1
    ensures var m, b := req.results[0].sendMessage.message, req.results[0].sendMessage.entities[0];
      && b.offset == |u.query| && b.length == |answer|
      && b.offset + b.length == |m|
      && m[..b.offset] == u.query && m[b.offset..b.offset + b.length] == answer
  {
    var message := u.query + answer;
    var text := InputBotInlineMessageText(true, message, [MessageEntityBold(|u.query|, |answer|)]);
    MessagesSetInlineBotResultsRequest(u.queryID, [InputBotInlineResult(hash(u.query), ResultKind, ResultTitle, message, text)])
  }

  /** The bot: its two collaborators and the bounds of the random length. */
  class Bot {
    const runner: Runner.NetRunner
    const tg: Client
    const hash: string -> string
    const minLength: int := 10
    const maxLength: int := 100

    constructor NewBot(runner: Runner.NetRunner, raw: Client, hash: string -> string)
      ensures this.runner == runner && tg == raw && this.hash == hash
      ensures minLength == 10 && maxLength == 100
    {
      this.runner := runner;
      tg := raw;
      this.hash := hash;
    }

    method RandLength() returns (n: int)
      ensures minLength <= n < maxLength
    {
      var draw :| 0 <= draw < maxLength - minLength;  // mathrand.Intn
      n := LengthFromDraw(minLength, maxLength, draw);
    }

    /**
     * Asks the runner to continue `text`; a zero `length` is replaced by a
     * random one. `sent` is the query the runner received.
     */
    method Query(text: string, length: int) returns (s: string, err: Option<Error>, ghost sent: Runner.Query)
      modifies runner
      ensures runner.calls == old(runner.calls) + [sent]
      ensures sent.prompt == text
      ensures length != 0 ==> sent.length == length
      ensures length == 0 ==> minLength <= sent.length < maxLength
      ensures match ExtractReply(runner.respond(sent))
        case Ok(a) => s == a && err == None
        case Err(e) => s == "" && err == Some(e)
    {
      var n := length;
      if n == 0 {
        n := RandLength();
      }
      var q := Runner.Query(text, n);
      sent := q;
      var r := runner.Query(q);
      if r.Err? {
        return "", Some(Wrap(NeuralNetworkContext, NetFailure(r.error))), sent;
      }
      if |r.value.replies| < 1 {
        return "", Some(Wrap(NeuralNetworkContext, ResultIsEmpty)), sent;
      }
      return r.value.replies[0], None, sent;
    }

    /**
     * What one answered inline query leaves behind, relative to the runner
     * calls `calls0` and the requests `requests0` before it: one more runner
     * call, for the query text and a random length; then either the query
     * error, with nothing submitted, or exactly one more request,
     * InlineAnswer of the first reply, and the RPC's own error.
     */
    ghost predicate AnsweredOnce(
      u: UpdateBotInlineQuery,
      calls0: seq<Runner.Query>,
      requests0: seq<MessagesSetInlineBotResultsRequest>,
      err: Option<Error>)
      reads runner, tg
    {
      && |runner.calls| == |calls0| + 1
      && runner.calls[..|calls0|] == calls0
      && var q := runner.calls[|calls0|];
      && q.prompt == u.query
      && minLength <= q.length < maxLength
      && match ExtractReply(runner.respond(q))
        case Err(e) => err == Some(Wrap(QueryNetContext, e)) && tg.requests == requests0
        case Ok(answer) =>
          var req := InlineAnswer(u, answer, hash);
          && tg.requests == requests0 + [req]
          && err == (if tg.respond(req).Some? then Some(RpcFailure(tg.respond(req).value)) else None)
    }

    /**
     * The errors of an answered query: a runner failure stays visible at the
     * end of the error text, an empty reply list is found by errors.Is, and
     * in both cases nothing is submitted.
     */
    lemma HandlerErrors(
      u: UpdateBotInlineQuery,
      calls0: seq<Runner.Query>,
      requests0: seq<MessagesSetInlineBotResultsRequest>,
      err: Option<Error>)
      requires AnsweredOnce(u, calls0, requests0, err)
      ensures var o := runner.respond(runner.calls[|calls0|]);
        && (o.Err? ==>
              && err.Some? && Is(err.value, NetFailure(o.error))
              && IsSuffix(o.error, Message(err.value))
              && tg.requests == requests0)
        && (o.Ok? && |o.value.replies| == 0 ==>
              err.Some? && Is(err.value, ResultIsEmpty) && tg.requests == requests0)
    {
      var o := runner.respond(runner.calls[|calls0|]);
      if o.Err? {
        WrappedMessageIsSuffix(err.value, NetFailure(o.error));
      }
    }

    method SendAnswer(u: UpdateBotInlineQuery) returns (err: Option<Error>)
      modifies runner, tg
      ensures AnsweredOnce(u, old(runner.calls), old(tg.requests), err)
    {
      ghost var sent;
      var answer, queryErr;
      answer, queryErr, sent := Query(u.query, 0);
      if queryErr.Some? {
        return Some(Wrap(QueryNetContext, queryErr.value));
      }
      var req := InlineAnswer(u, answer, hash);
      var rpcErr := tg.MessagesSetInlineBotResults(req);
      err := if rpcErr.Some? then Some(RpcFailure(rpcErr.value)) else None;
    }

    /** The update handler: an empty query is ignored, any other is answered. */
    method Handler(u: UpdateBotInlineQuery) returns (err: Option<Error>)
      modifies runner, tg
      ensures u.query == "" ==> err == None && runner.calls == old(runner.calls) && tg.requests == old(tg.requests)
      ensures u.query != "" ==> AnsweredOnce(u, old(runner.calls), old(tg.requests), err)
      ensures u.query != "" ==>
        var o := runner.respond(runner.calls[|old(runner.calls)|]);
        && (o.Err? ==> err.Some? && IsSuffix(o.error, Message(err.value)) && tg.requests == old(tg.requests))
        && (o.Ok? && |o.value.replies| == 0 ==>
              err.Some? && Is(err.value, ResultIsEmpty) && tg.requests == old(tg.requests))
    {
      if u.query == "" {
        return None;
      }
      err := SendAnswer(u);
      HandlerErrors(u, old(runner.calls), old(tg.requests), err);
    }
  }

  /** The scenario of bot/bot_test.go: query "wtf", the runner answers "abc". */
  method InlineQueryScenario() returns (ghost submitted: MessagesSetInlineBotResultsRequest, err: Option<Error>)
    ensures err == None
    ensures submitted.queryID == 10 && |submitted.results| == 1
    ensures submitted.results[0].description == "wtfabc"
    ensures submitted.results[0].sendMessage.message == "wtfabc"
    ensures submitted.results[0].sendMessage.entities == [MessageEntityBold(3, 3)]
  {
    var r := new Runner.NetRunner(q => Ok(Runner.Result(["abc"])));
    var raw := new Client(req => None);
    var bot := new Bot.NewBot(r, raw, s => s);
    err := bot.Handler(UpdateBotInlineQuery(10, 0, "wtf"));
    submitted := raw.requests[0];
  }
}
