/**
 * What each facade call makes of the transport's outcome (Sources/GroupMeAPI/GroupMeAPI.swift):
 * the raw-data calls return the bytes as they are; the others decode the envelope,
 * run `groupmeResponseErrorCheck` at some call sites and not at others, force-unwrap
 * `response`, and may project a sub-field. JSON decoding is the `decode` parameter.
 */
module Calls {
  import opened Common
  import opened Envelope
  import Transport

  datatype Operation =
    | GetGroups | GetFormerGroups | GetGroup | CreateGroup | UpdateGroup | DestroyGroup | JoinGroup | RejoinGroup
    | AddMembers | RemoveMember | UpdateNickname
    | GetMessages | CreateMessage | GetChats | GetDirectMessages | CreateDirectMessage
    | LikeMessage | UnlikeMessage | TopLikedMessages | CurrentUserLikes | CurrentUserHits
    | GetCurrentUser | UpdateCurrentUser | EnableSms | DisableSms
    | GetBlockedUsers | BlockBetween | CreateBlock | RemoveBlock

  /** The calls whose promise is the transport's own `Promise<Data>`. */
  predicate ReturnsRawData(op: Operation) {
    op in {DestroyGroup, RemoveMember, LikeMessage, UnlikeMessage, EnableSms, DisableSms, RemoveBlock}
  }

  /** The call sites that chain `groupmeResponseErrorCheck` before unwrapping. */
  predicate ChecksErrors(op: Operation): (checks: bool)
    // every checked site decodes an envelope
    ensures checks ==> !ReturnsRawData(op)
  {
    op in {UpdateNickname, GetMessages, CreateMessage, CreateDirectMessage, GetCurrentUser, UpdateCurrentUser}
  }

  datatype CallError<E> = TransportFailed(reason: Transport.TransportError<E>) | Undecodable | Api(error: ApiError)

  /** How a facade promise ends; `Trapped` is the crash of force-unwrapping an absent `response`. */
  datatype CallResult<E, U> = Fulfilled(value: U) | Rejected(error: CallError<E>) | Trapped

  /** A raw-data call: the transport's outcome is the call's outcome. */
  function SettleRaw<E>(op: Operation, completion: Transport.Completion<E>): (r: CallResult<E, Bytes>)
    requires ReturnsRawData(op)
    ensures r.Fulfilled? <==> completion.Delivered?
    ensures r.Fulfilled? ==> r.value == completion.data
    ensures completion.Failed? ==> r == Rejected(TransportFailed(completion.reason))
  {
    match completion
    case Delivered(data) => Fulfilled(data)
    case Failed(reason) => Rejected(TransportFailed(reason))
  }

  /**
   * An envelope-decoding call: transport, then decode, then (at the checked sites) the
   * error check, then `response!` and the projection `project`.
   */
  function Settle<E, T, U>(op: Operation, completion: Transport.Completion<E>,
                           decode: Bytes -> Option<Envelope<T>>, project: T -> U): (r: CallResult<E, U>)
    requires !ReturnsRawData(op)
    ensures completion.Failed? ==> r == Rejected(TransportFailed(completion.reason))
    ensures completion.Delivered? && decode(completion.data).None? ==> r == Rejected(Undecodable)
    // a checked site never yields a payload alongside reported errors
    ensures ChecksErrors(op) && completion.Delivered? && decode(completion.data).Some?
            && decode(completion.data).value.meta.errors.Some?
            ==> r == Rejected(Api(GroupMeErrors(decode(completion.data).value.meta.errors.value)))
    // an unchecked site yields the payload whenever one is present, errors or not
    ensures r.Fulfilled? <==> (completion.Delivered? && decode(completion.data).Some?
                               && decode(completion.data).value.response.Some?
                               && (!ChecksErrors(op) || decode(completion.data).value.meta.errors.None?))
    ensures r.Fulfilled? ==> r.value == project(decode(completion.data).value.response.value)
    // the trap is reached exactly when nothing stopped the chain and `response` is absent
    ensures r.Trapped? <==> (completion.Delivered? && decode(completion.data).Some?
                             && decode(completion.data).value.response.None?
                             && (!ChecksErrors(op) || decode(completion.data).value.meta.errors.None?))
  {
    match completion
    case Failed(reason) => Rejected(TransportFailed(reason))
    case Delivered(data) =>
      match decode(data)
      case None => Rejected(Undecodable)
      case Some(envelope) =>
        match Unwrap(ChecksErrors(op), envelope, project)
        case Ok(v) => Fulfilled(v)
        case Thrown(e) => Rejected(Api(e))
        case MissingResponse => Trapped
  }

  /**
   * The check is what separates the two kinds of site: on the same bytes, a checked and an
   * unchecked site end alike exactly when the decoded envelope reports no errors.
   */
  lemma CheckedAndUncheckedAgreeWithoutErrors<E, T, U>(completion: Transport.Completion<E>,
                                                       decode: Bytes -> Option<Envelope<T>>, project: T -> U,
                                                       envelope: Envelope<T>)
    requires completion.Delivered? && decode(completion.data) == Some(envelope)
    ensures Settle(GetCurrentUser, completion, decode, project) == Settle(GetGroups, completion, decode, project)
            <==> envelope.meta.errors.None?
  {
  }
}
