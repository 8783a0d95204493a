/** What the transport reports for one provider write, and what the write may have done. */
module Provider {
  import opened Basics

  /** A 2xx with or without a usable message id, another status, an oversized 2xx body, a broken
      exchange, or a local refusal to submit. */
  datatype Reply =
    | Created(validId: bool)
    | Status(code: nat)
    | Oversized
    | Broken(submitted: bool)
    | LocalLimit

  /** What the write may have done, whatever the sender concludes. */
  function Effect(reply: Reply): Outcome {
    match reply
    case Created(_) => Accepted
    case Status(code) => if code >= 500 then Unknown else Rejected
    case Oversized => Unknown
    case Broken(submitted) => if submitted then Unknown else NotSubmitted
    case LocalLimit => NotSubmitted
  }

  /** A write may have been carried out unless the provider refused it with a status below 500, or it
      never went out. */
  predicate MaybeDelivered(reply: Reply) {
    match reply
    case Created(_) => true
    case Status(code) => code >= 500
    case Oversized => true
    case Broken(submitted) => submitted
    case LocalLimit => false
  }

  lemma EffectTold(reply: Reply)
    ensures Effect(reply).MayHaveBeenAccepted() <==> MaybeDelivered(reply)
    ensures Effect(reply) == Accepted <==> reply.Created?
  {
  }

  function StatusOf(reply: Reply): Option<nat> {
    match reply
    case Status(code) => Some(code)
    case LocalLimit => Some(429)
    case _ => None
  }
}
