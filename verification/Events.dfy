/** The events the proxy sends to the state manager without waiting for an answer, and the
    channel that carries them. */
module Events {
  type UserId = int
  type TaskId = int
  type NodeId = int
  type StackId = int
  type Model = string
  type Instant = int

  datatype Event =
    | UpdateStackNumTokens(stack: StackId, estimated: int, total: int)
    | UpdateStackNumTokensFiat(user: UserId, model: Model,
                               estimatedInput: int, input: int, inputTokens: int,
                               estimatedOutput: int, output: int, outputTokens: int)
    | TopUpBalance(user: UserId, amount: int)

  /** The sending half of the channel.  A send fails only once the receiver is gone; `accepts`
      says how many more sends succeed before that happens. */
  class Channel {
    var sent: seq<Event>
    var accepts: nat

    constructor (accepts: nat)
      ensures sent == [] && this.accepts == accepts
    {
      this.sent := [];
      this.accepts := accepts;
    }

    method Send(e: Event) returns (ok: bool)
      modifies this
      ensures ok <==> old(accepts) > 0
      ensures sent == if ok then old(sent) + [e] else old(sent)
      ensures accepts == if ok then old(accepts) - 1 else old(accepts)
    {
      ok := accepts > 0;
      if ok {
        sent := sent + [e];
        accepts := accepts - 1;
      }
    }
  }
}
