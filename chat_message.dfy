/** The `ChatMessage` record, its sample conversation, and the `ChatTab` enumeration. */
module ChatMessageModel {
  import opened Common

  /** Immutable once built; the id is `let id = UUID()`, fresh for every construction. */
  datatype ChatMessage = ChatMessage(
    id: Uuid,
    text: string,
    timestamp: Time,
    isFromCurrentUser: bool,
    senderName: string)

  /** The memberwise initializer `ChatMessage(text:timestamp:isFromCurrentUser:senderName:)`. */
  method NewChatMessage(ids: UuidSource, text: string, timestamp: Time, isFromCurrentUser: bool,
                        senderName: string) returns (m: ChatMessage)
    modifies ids
    ensures m == ChatMessage(old(ids.next), text, timestamp, isFromCurrentUser, senderName)
    ensures ids.next == old(ids.next) + 1
  {
    var id := ids.Fresh();
    m := ChatMessage(id, text, timestamp, isFromCurrentUser, senderName);
  }

  /** The app's convention: the current user's own messages are signed "You", and only those. */
  predicate SignedBySender(m: ChatMessage) {
    m.senderName == "You" <==> m.isFromCurrentUser
  }

  /** `ChatMessage.sampleMessages`, built once at `now` with consecutive ids from `firstId`. */
  function SampleMessages(firstId: Uuid, now: Time): seq<ChatMessage> {
    [ ChatMessage(firstId, "Hey! How's your day going?", now - 3600, false, "Jessica"),
      ChatMessage(firstId + 1, "Pretty good! Just finished work. How about you?", now - 3500, true, "You"),
      ChatMessage(firstId + 2, "Same here! Want to grab coffee later?", now - 3400, false, "Jessica"),
      ChatMessage(firstId + 3, "Sounds perfect! See you at 5?", now - 3300, true, "You") ]
  }

  /**
   * The sample conversation alternates sender starting with the other person, is signed by the
   * convention above, and its timestamps rise by 100 s from an hour before creation.
   */
  lemma SampleConversation(firstId: Uuid, now: Time)
    ensures var s := SampleMessages(firstId, now);
      && |s| == 4
      && (forall i :: 0 <= i < 4 ==> s[i].isFromCurrentUser == (i % 2 == 1))
      && (forall i :: 0 <= i < 4 ==> SignedBySender(s[i]))
      && (forall i :: 0 <= i < 4 ==> s[i].timestamp == now - 3600 + 100 * i)
      && (forall i, j :: 0 <= i < j < 4 ==> s[i].timestamp < s[j].timestamp)
  {
  }

  datatype ChatTab = Chats | Pending

  /** `ChatTab.allCases`, in declaration order. */
  const AllTabs: seq<ChatTab> := [Chats, Pending]

  function RawValue(tab: ChatTab): string {
    match tab
    case Chats => "Chats"
    case Pending => "Pending"
  }

  /** `ChatTab.title`. */
  function Title(tab: ChatTab): string {
    RawValue(tab)
  }

  /** The synthesized `ChatTab(rawValue:)`. */
  function FromRawValue(s: string): (r: Option<ChatTab>)
    ensures r.Some? ==> RawValue(r.value) == s
  {
    if s == "Chats" then Some(Chats)
    else if s == "Pending" then Some(Pending)
    else None
  }

  /** Raw values round-trip, titles are the raw values, and `allCases` lists each tab once. */
  lemma ChatTabRoundTrip(tab: ChatTab)
    ensures FromRawValue(RawValue(tab)) == Some(tab)
    ensures Title(tab) == RawValue(tab)
    ensures tab in AllTabs && |AllTabs| == 2 && AllTabs[0] != AllTabs[1]
  {
  }
}
