# porftgbot inline-query bot, modelled in Dafny

The bot answers Telegram inline queries. It sends the query text to a
neural-network text generator (the runner). The runner returns one or more
continuations, and the bot answers with one inline result: the query
followed by the first continuation, with the continuation in bold.

The model has four modules:

- `Wrappers` (wrappers.dfy): `Option` and `Result`, which stand for Go's `(value, error)` returns.
- `Runner` (runner.dfy): the `Query` and `Result` records and the `NetRunner` interface. `NetRunner` is a class with
  an oracle `respond` (what the service answers to each query) and a ghost log `calls` of every query it received.
- `Telegram` (telegram.dfy): the inline-query update, the bold entity, the inline result and the
  `messages.setInlineBotResults` request as datatypes. `Client` is a class with an oracle `respond` (does the
  server accept a request, or which error does it return) and a ghost log `requests` of every request submitted.
- `Bot` (bot.dfy): the bot itself.
  - Errors: the `Error` datatype for Go errors, with `Wrap` for `%w`. `Is` models `errors.Is` and `Message`
    models `Error()`.
  - Pure steps: `LengthFromDraw`, `ExtractReply` and `InlineAnswer` give the random length, the reply
    extraction and the answer request.
  - The `Bot` class has the source's fields. `minLength` and `maxLength` are the constants 10 and 100. Its
    methods `RandLength`, `Query`, `SendAnswer` and `Handler` follow the source's control flow. `SendAnswer` and
    `Handler` are proved against the ghost predicate `AnsweredOnce`, which states the runner calls and the
    submitted requests in terms of the pure steps.

Text is `string`, a sequence of Unicode scalar values. So the rune count of a valid UTF-8 Go string
(`utf8.RuneCountInString`) is the length of the sequence.

Two behaviours of the code are worth stating plainly:
- `query` replaces only a requested length of 0 by a random one in `[10, 100)`. Any other length, negative ones
  included, is passed unchanged (`Bot.Bot.Query`).
- On an empty reply list the handler returns an error that wraps `ErrResultIsEmpty` twice ("query net: failed to
  query neural network: result is empty"). `errors.Is` still finds it (`ExtractReply`, `Bot.Bot.HandlerErrors`).

## Model

| member | source | states |
|---|---|---|
| `Bot.LengthFromDraw` | bot/bot.go:41-43 | the length drawn from an `Intn(maxLength - minLength)` value lies in `[minLength, maxLength)` |
| `Bot.EveryLengthDrawnOnce` | bot/bot.go:41-43 | every length in `[minLength, maxLength)` comes from exactly one `Intn` value, so the whole range is reachable and no two draws collide |
| `Bot.Bot.NewBot` | bot/bot.go:29-37 | the bot keeps its runner and client, and its length bounds are 10 and 100 |
| `Bot.Bot.RandLength` | bot/bot.go:41-43 | the random length lies in `[10, 100)` |
| `Bot.ExtractReply` | bot/bot.go:63-70 | the reply is `Replies[0]` exactly when the runner succeeded with a non-empty list; a runner error is wrapped so that `errors.Is` finds it; an empty list gives an error for which `errors.Is(err, ErrResultIsEmpty)` holds; both error texts carry the "failed to query neural network" context |
| `Bot.WrappedMessageIsSuffix` | bot/bot.go:63-77 | for any error that `errors.Is` finds in a chain of `%w` wraps, its text is the end of the outer error's text |
| `Bot.Bot.HandlerErrors` | bot/bot.go:63-77 | after an answered query: if the runner failed with text `t`, the handler's error wraps it and its text ends with `t`; if the reply list was empty, `errors.Is(err, ErrResultIsEmpty)` holds; in both cases nothing was submitted |
| `Bot.Bot.Query` | bot/bot.go:45-71 | the runner is called once with `Prompt == text`; a zero length becomes a random one in `[10, 100)` and any other length is sent unchanged; the result is the first reply and no error, or `""` and the error, as `ExtractReply` says |
| `Bot.InlineAnswer` | bot/bot.go:78-106 | one request keyed by the update's `QueryID`, with one result of type "article", title "Результат:", id `hash(query)` (a function of the query text alone); message and description are both `query + answer`; its one bold entity starts at the rune count of the query and spans the rune count of the answer, so it ends at the end of the message and covers exactly the answer, while the text before it is exactly the query |
| `Bot.Bot.SendAnswer` | bot/bot.go:73-111 | one runner call for the query text with a random length; on a query error, that error wrapped in "query net" and no request submitted; otherwise exactly one request, `InlineAnswer` of the first reply, and the RPC's own error returned |
| `Bot.Bot.Handler` | bot/bot.go:113-126 | an empty query returns no error with no runner call and no request; any other query behaves as `SendAnswer`, and a runner error text ends the returned error text while an empty reply list gives an error matching `ErrResultIsEmpty` |
| `Bot.InlineQueryScenario` | bot/bot_test.go:29-71 | for query "wtf" with ID 10 and the reply "abc": no error, one result whose description and message are "wtfabc", with the bold span at offset 3 and length 3 |
| `Runner.NetRunner.Query` | runner/net_runner.go:16-19 | the runner answers as its oracle says; the ghost log records the query |
| `Telegram.Client.MessagesSetInlineBotResults` | bot/bot.go:108-110 | the request is recorded in the ghost log and the call returns the server's error, if any |

## Left out

- Logging with zap, including the deferred debug log in `query` and the info log in the handler. It has no effect on behaviour.
- `context.Context` and `tg.UpdateContext`. Only cancellation would use them, as a runner or RPC error, and the oracles can return those errors.
- SHA-256 and hex encoding of the result ID. These are foreign library calls, so the model uses a function `hash` from text to text, given to `NewBot`. `NewBot` takes it as an extra parameter. Only its determinism matters.
- `math/rand`: `RandLength` picks any value in `[0, maxLength - minLength)` as the `Intn` result. The uniform distribution is not modelled, only the range and the one-to-one map from draws to lengths.
- The runner and the Telegram server are oracles: a fixed function from a request to its outcome. This gives every outcome for a single call, but for a given oracle, repeated identical calls always get the same answer.
- runner/http_runner.go, which does HTTP, JSON and the status check: network I/O. Only its outcome, a result or an error text, is modelled.
- cmd/porftgbot/app.go, which handles flags, configuration, session storage, login and signals: process wiring and I/O.
- `Handler` returns a closure in the source. The model's `Handler` is the method the closure runs for one update.
- TL details: optional-field flags set by `SetEntities`, `SetTitle` and `SetDescription`, the unused fields of the update and of the result, the RPC's boolean reply, and the binary encoding.
- Telegram's UTF-16 entity offsets. The code counts runes, and so does the model.
- Rune counts of invalid UTF-8. There, concatenation can change the count. Text in the model is always a sequence of valid code points.
- Concurrency of the update dispatcher: each update is handled on its own, and the model handles one at a time.
