/**
 * The simulated data source `NetworkService`: what each request produces once its simulated
 * latency has elapsed. The latency itself, and the `Just`/`Future` publishers that carry the
 * result, are not modelled; the result is the value the publisher delivers.
 */
module NetworkService {
  import opened Common
  import opened UserModel
  import opened ChatMessageModel

  /** `NetworkError`; `networkError(e)` keeps only what is observed of `e`, its description. */
  datatype NetworkError = InvalidUrl | NoData | DecodingError | Transport(cause: string)

  /**
   * `errorDescription`, which is also the error's `localizedDescription` since it is never nil:
   * a fixed text per kind, and the wrapped error's own description for a transport failure.
   */
  function ErrorDescription(e: NetworkError): (r: string)
    ensures e.Transport? ==> r == e.cause
    ensures !e.Transport? ==> r in {"Invalid URL", "No data received", "Failed to decode data"}
    ensures e == NoData <==> !e.Transport? && r == "No data received"
  {
    match e
    case InvalidUrl => "Invalid URL"
    case NoData => "No data received"
    case DecodingError => "Failed to decode data"
    case Transport(cause) => cause
  }

  /** The fixed descriptions tell the three non-transport kinds apart. */
  lemma FixedDescriptionsDistinct(e1: NetworkError, e2: NetworkError)
    requires !e1.Transport? && !e2.Transport?
    ensures ErrorDescription(e1) == ErrorDescription(e2) <==> e1 == e2
  {
  }

  /** `fetchUsers()`: always the sample roster, never a failure. */
  function FetchUsers(sample: seq<User>): (r: Result<seq<User>, NetworkError>)
    ensures r.Success? && r.value == sample
  {
    Success(sample)
  }

  /**
   * `updateUserStatus(userId, isOnline:)` when its delay elapses at `now`: the first sample user
   * with that id, rebuilt with the requested status as a NEW record whose id is `freshId`, or
   * `.noData` when no sample user has that id.
   */
  function UpdateUserStatus(sample: seq<User>, userId: Uuid, isOnline: bool, now: Time, freshId: Uuid)
    : (r: Result<User, NetworkError>)
    ensures r.Success? <==> IdOccurs(sample, userId)
    ensures r.Failure? ==> r.error == NoData
    ensures r.Success? ==> r.value.id == freshId
    ensures r.Success? ==> StatusApplied(sample[FirstIndexOfId(sample, userId).value], r.value, isOnline, now)
  {
    match FirstIndexOfId(sample, userId)
    case None => Failure(NoData)
    case Some(i) =>
      var user := sample[i];
      Success(User(freshId, user.name, user.age, user.profileImageName, user.bio, isOnline,
                   if isOnline then now else user.lastSeen))
  }

  /**
   * The record an update returns is not a sample user, so asking the data source to update it
   * again always fails with `.noData`.
   */
  lemma UpdatedRecordUnknown(sample: seq<User>, userId: Uuid, isOnline: bool, now: Time, freshId: Uuid,
                             isOnline2: bool, now2: Time, freshId2: Uuid)
    requires Issued(sample, freshId)
    requires UpdateUserStatus(sample, userId, isOnline, now, freshId).Success?
    ensures var u := UpdateUserStatus(sample, userId, isOnline, now, freshId).value;
      UpdateUserStatus(sample, u.id, isOnline2, now2, freshId2) == Failure(NoData)
  {
    FreshIdNotFound(sample, freshId, freshId);
  }

  /**
   * `sendMessage(message, to:)` when its delay elapses at `now`: always a message from the current
   * user, signed "You", carrying the given text; nothing is stored.
   */
  function SendMessage(text: string, userId: Uuid, now: Time, freshId: Uuid): (r: Result<ChatMessage, NetworkError>)
    ensures r.Success?
    ensures r.value.text == text && r.value.timestamp == now && r.value.id == freshId
    ensures r.value.isFromCurrentUser && SignedBySender(r.value)
  {
    Success(ChatMessage(freshId, text, now, true, "You"))
  }
}
