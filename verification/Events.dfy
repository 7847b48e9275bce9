/** What the scheduler's worker tells the async side about one job. */
module Events {

  type Token = int

  /** Ids of the two end-of-sequence tokens. */
  const EOS_IDS: seq<Token> := [1, 130073]

  predicate IsEos(t: Token) {
    t in EOS_IDS
  }

  datatype FinishReason = Stop | Length | Cancelled | Error

  datatype Usage = Usage(promptTokens: nat, completionTokens: nat)

  datatype GenEvent =
    | Token(id: Token)
    | Done(reason: FinishReason, usage: Usage)
    | Failed(message: string)
}
