/** The neural-network runner interface of runner/net_runner.go. */
module Runner {
  import Wrappers

  /** A generation request: the prompt and the number of characters wanted. */
  datatype Query = Query(prompt: string, length: int)

  /** The service's answer: its completions, in order. */
  datatype Result = Result(replies: seq<string>)

  /** What one call of `NetRunner.Query` yields: a result, or the text of the error. */
  type Outcome = Wrappers.Result<Result, string>

  /**
   * The `NetRunner` interface, as an oracle. `respond` says what the runner
   * answers to each query (an HTTP service, a mock); `calls` records every
   * query the runner received, in order (a record of the model,
   * not state of the source's runner).
   */
  class NetRunner {
    const respond: Query -> Outcome
    ghost var calls: seq<Query>

    constructor (respond: Query -> Outcome)
      ensures this.respond == respond && calls == []
    {
      this.respond := respond;
      calls := [];
    }

    method Query(q: Query) returns (r: Outcome)
      modifies this
      ensures calls == old(calls) + [q]
      ensures r == respond(q)
    {
      calls := calls + [q];
      r := respond(q);
    }
  }
}
