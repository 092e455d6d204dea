/**
 * Interaction types and stage numbers of the MAL interaction patterns, and the
 * rule that picks the stage at which an error for a received message is
 * returned (MessageReceive.calculateReturnStage).
 */
module InteractionStages {
  import opened Wrappers

  /**
   * Interaction type of a message header. `UnknownType` stands for an ordinal
   * outside the six known types; the number it carries is not checked against
   * them, and every `UnknownType` is treated as unknown whatever its number.
   */
  datatype InteractionType = Send | Submit | Request | Invoke | Progress | PubSub | UnknownType(ordinal: int)

  /** A stage number, carried on the wire as an unsigned octet. */
  type UOctet = x: int | 0 <= x < 256

  const SEND_STAGE: UOctet := 1

  const SUBMIT_STAGE: UOctet := 1
  const SUBMIT_ACK_STAGE: UOctet := 2

  const REQUEST_STAGE: UOctet := 1
  const REQUEST_RESPONSE_STAGE: UOctet := 2

  const INVOKE_STAGE: UOctet := 1
  const INVOKE_ACK_STAGE: UOctet := 2
  const INVOKE_RESPONSE_STAGE: UOctet := 3

  const PROGRESS_STAGE: UOctet := 1
  const PROGRESS_ACK_STAGE: UOctet := 2
  const PROGRESS_UPDATE_STAGE: UOctet := 3
  const PROGRESS_RESPONSE_STAGE: UOctet := 4

  const REGISTER_STAGE: UOctet := 1
  const REGISTER_ACK_STAGE: UOctet := 2
  const PUBLISH_REGISTER_STAGE: UOctet := 3
  const PUBLISH_REGISTER_ACK_STAGE: UOctet := 4
  const PUBLISH_STAGE: UOctet := 5
  const NOTIFY_STAGE: UOctet := 6
  const DEREGISTER_STAGE: UOctet := 7
  const DEREGISTER_ACK_STAGE: UOctet := 8
  const PUBLISH_DEREGISTER_STAGE: UOctet := 9
  const PUBLISH_DEREGISTER_ACK_STAGE: UOctet := 10

  /**
   * calculateReturnStage: the stage at which an error about a message of type
   * `t` at stage `s` is returned, or None when no error may be returned.
   */
  function ReturnStage(t: InteractionType, s: UOctet): (r: Option<UOctet>)
  {
    match t
    case Submit => if s == SUBMIT_STAGE then Some(SUBMIT_ACK_STAGE) else None
    case Request => if s == REQUEST_STAGE then Some(REQUEST_RESPONSE_STAGE) else None
    case Invoke => if s == INVOKE_STAGE then Some(INVOKE_ACK_STAGE) else None
    case Progress => if s == PROGRESS_STAGE then Some(PROGRESS_ACK_STAGE) else None
    case PubSub =>
      if s == REGISTER_STAGE then Some(REGISTER_ACK_STAGE)
      else if s == PUBLISH_REGISTER_STAGE then Some(PUBLISH_REGISTER_ACK_STAGE)
      else if s == PUBLISH_STAGE then Some(PUBLISH_STAGE)
      else if s == DEREGISTER_STAGE then Some(DEREGISTER_ACK_STAGE)
      else if s == PUBLISH_DEREGISTER_STAGE then Some(PUBLISH_DEREGISTER_ACK_STAGE)
      else None
    case _ => None
  }

  /** The stages that open an exchange (a provider or broker receives them). */
  predicate IsInitiating(t: InteractionType, s: UOctet)
  {
    || (t == Send && s == SEND_STAGE)
    || (t in {Submit, Request, Invoke, Progress} && s == 1)
    || (t == PubSub && s in {REGISTER_STAGE, PUBLISH_REGISTER_STAGE, PUBLISH_STAGE,
                            DEREGISTER_STAGE, PUBLISH_DEREGISTER_STAGE})
  }

  /** The stages that answer an earlier message: acknowledgements, updates and responses. */
  predicate IsReply(t: InteractionType, s: UOctet)
  {
    || (t == Submit && s == SUBMIT_ACK_STAGE)
    || (t == Request && s == REQUEST_RESPONSE_STAGE)
    || (t == Invoke && s in {INVOKE_ACK_STAGE, INVOKE_RESPONSE_STAGE})
    || (t == Progress && s in {PROGRESS_ACK_STAGE, PROGRESS_UPDATE_STAGE, PROGRESS_RESPONSE_STAGE})
    || (t == PubSub && s in {REGISTER_ACK_STAGE, PUBLISH_REGISTER_ACK_STAGE,
                            DEREGISTER_ACK_STAGE, PUBLISH_DEREGISTER_ACK_STAGE})
  }

  /**
   * The (type, stage) pairs the dispatcher accepts: any stage of Send, and the
   * initiating, reply and NOTIFY stages of the other patterns.
   */
  predicate IsLegal(t: InteractionType, s: UOctet)
  {
    t == Send || IsInitiating(t, s) || IsReply(t, s) || (t == PubSub && s == NOTIFY_STAGE)
  }

  /** The table of error-return stages, one (type, initiating stage, return stage) row each. */
  const RETURN_STAGE_TABLE: seq<(InteractionType, UOctet, UOctet)> := [
    (Submit, SUBMIT_STAGE, SUBMIT_ACK_STAGE),
    (Request, REQUEST_STAGE, REQUEST_RESPONSE_STAGE),
    (Invoke, INVOKE_STAGE, INVOKE_ACK_STAGE),
    (Progress, PROGRESS_STAGE, PROGRESS_ACK_STAGE),
    (PubSub, REGISTER_STAGE, REGISTER_ACK_STAGE),
    (PubSub, PUBLISH_REGISTER_STAGE, PUBLISH_REGISTER_ACK_STAGE),
    (PubSub, PUBLISH_STAGE, PUBLISH_STAGE),
    (PubSub, DEREGISTER_STAGE, DEREGISTER_ACK_STAGE),
    (PubSub, PUBLISH_DEREGISTER_STAGE, PUBLISH_DEREGISTER_ACK_STAGE)
  ]

  /** calculateReturnStage is exactly the table: both directions. */
  lemma ReturnStageIsTable(t: InteractionType, s: UOctet, r: UOctet)
    ensures ReturnStage(t, s) == Some(r) <==> (t, s, r) in RETURN_STAGE_TABLE
  {
  }

  /** An error can be returned exactly for the initiating stages other than Send. */
  lemma ReturnStageExistsIffInitiating(t: InteractionType, s: UOctet)
    ensures ReturnStage(t, s).Some? <==> IsInitiating(t, s) && t != Send
  {
  }

  /** No error is ever returned for a reply, for NOTIFY or for any Send message. */
  lemma NoReturnForRepliesNotifyOrSend(t: InteractionType, s: UOctet)
    requires IsReply(t, s) || (t == PubSub && s == NOTIFY_STAGE) || t == Send || t.UnknownType?
    ensures ReturnStage(t, s) == None
  {
  }

  /**
   * An error return is itself never answered, with the one exception of PUBLISH,
   * whose errors reuse the PUBLISH stage.
   */
  lemma ReturnStageOfReturnStage(t: InteractionType, s: UOctet)
    requires ReturnStage(t, s).Some?
    ensures var r := ReturnStage(t, s).value;
      if t == PubSub && s == PUBLISH_STAGE then r == s && ReturnStage(t, r) == Some(r)
      else IsReply(t, r) && ReturnStage(t, r) == None
  {
  }
}
