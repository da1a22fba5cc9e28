/**
 * `RealtimeService`: the simulated WebSocket. A connect callback scheduled one second after each
 * (re)connection moves the service to `.connected` and starts two repeating generators, one of
 * incoming messages and one of user status changes. Timers and delays are events here: each
 * firing is a method call, with the random draws as parameters.
 *
 * Two facts of the source are kept. A scheduled connect callback is never cancelled, so it fires
 * even after a disconnect. Re-arming a generator replaces the service's reference to the previous
 * one without invalidating it, so the old generator keeps firing and a later `disconnect()` no
 * longer reaches it; hence generators are counted, and `...Held` says whether the service still
 * references one.
 */
module Realtime {
  import opened Common
  import opened UserModel
  import opened ChatMessageModel

  datatype ConnectionStatus = Connected | Connecting | Disconnected | Error

  /** The canned texts of simulated incoming messages. */
  const CannedMessages: seq<string> := [
    "Hey! How's it going?",
    "Want to grab coffee later?",
    "That sounds amazing!",
    "I'm free this weekend",
    "Let's plan something fun!"
  ]

  /** `messages.randomElement() ?? "Hello!"` with the draw `choice`. */
  function IncomingText(choice: nat): (r: string)
    ensures r in CannedMessages
  {
    match RandomElement(CannedMessages, choice)
    case Some(text) => text
    case None => "Hello!"
  }

  /** `User.sampleUsers.randomElement()?.name ?? "Someone"` with the draw `choice`. */
  function IncomingSender(sample: seq<User>, choice: nat): (r: string)
    ensures |sample| > 0 ==> exists u :: u in sample && u.name == r
    ensures |sample| == 0 ==> r == "Someone"
  {
    match RandomElement(sample, choice)
    case Some(u) => u.name
    case None => "Someone"
  }

  class RealtimeService {
    const ids: UuidSource
    /** `User.sampleUsers`, which the generators draw from. */
    const sample: seq<User>

    var connectionStatus: ConnectionStatus
    var incomingMessages: seq<ChatMessage>
    var userStatusUpdates: map<Uuid, bool>

    /** Connect callbacks scheduled and not yet run. */
    var pendingConnects: nat
    /** Repeating message generators scheduled, and whether `messageTimer` refers to one. */
    var messageTimers: nat
    var messageTimerHeld: bool
    /** Repeating status generators scheduled, and whether `statusTimer` refers to one. */
    var statusTimers: nat
    var statusTimerHeld: bool

    /** The referenced generators are live ones, and every status key is a sample user's id. */
    ghost predicate Valid()
      reads this
    {
      && (messageTimerHeld ==> messageTimers > 0)
      && (statusTimerHeld ==> statusTimers > 0)
      && forall k :: k in userStatusUpdates ==> IdOccurs(sample, k)
    }

    /** `init()`: starts connecting at once. */
    constructor(ids: UuidSource, sample: seq<User>)
      ensures Valid()
      ensures this.ids == ids && this.sample == sample
      ensures connectionStatus == Connecting && pendingConnects == 1
      ensures incomingMessages == [] && userStatusUpdates == map[]
      ensures messageTimers == 0 && !messageTimerHeld && statusTimers == 0 && !statusTimerHeld
    {
      this.ids := ids;
      this.sample := sample;
      connectionStatus := Disconnected;
      incomingMessages := [];
      userStatusUpdates := map[];
      messageTimers, messageTimerHeld := 0, false;
      statusTimers, statusTimerHeld := 0, false;
      pendingConnects := 0;
      new;
      SetupRealtimeConnection();
    }

    /** `setupRealtimeConnection()`: `.connecting`, and a connect callback one second later. */
    method SetupRealtimeConnection()
      modifies this`connectionStatus, this`pendingConnects
      ensures connectionStatus == Connecting
      ensures pendingConnects == old(pendingConnects) + 1
    {
      connectionStatus := Connecting;
      pendingConnects := pendingConnects + 1;
    }

    /** A scheduled connect callback runs: `.connected`, and both generators are (re)armed. */
    method ConnectDelayElapsed()
      requires Valid() && pendingConnects > 0
      modifies this`connectionStatus, this`pendingConnects, this`messageTimers, this`messageTimerHeld,
               this`statusTimers, this`statusTimerHeld
      ensures Valid()
      ensures connectionStatus == Connected
      ensures pendingConnects == old(pendingConnects) - 1
      ensures messageTimers == old(messageTimers) + 1 && messageTimerHeld
      ensures statusTimers == old(statusTimers) + 1 && statusTimerHeld
    {
      connectionStatus := Connected;
      pendingConnects := pendingConnects - 1;
      StartMessageSimulation();
      StartStatusUpdates();
    }

    /** `startMessageSimulation()`: a new 10 s generator; one already referenced keeps running. */
    method StartMessageSimulation()
      modifies this`messageTimers, this`messageTimerHeld
      ensures messageTimers == old(messageTimers) + 1 && messageTimerHeld
    {
      messageTimers := messageTimers + 1;
      messageTimerHeld := true;
    }

    /** `startStatusUpdates()`: a new 15 s generator; one already referenced keeps running. */
    method StartStatusUpdates()
      modifies this`statusTimers, this`statusTimerHeld
      ensures statusTimers == old(statusTimers) + 1 && statusTimerHeld
    {
      statusTimers := statusTimers + 1;
      statusTimerHeld := true;
    }

    /**
     * A message generator fires at `now` (`simulateIncomingMessage()`): exactly one message is
     * appended, not from the current user, with a canned text and a sample user's name.
     */
    method SimulateIncomingMessage(textChoice: nat, senderChoice: nat, now: Time)
      requires messageTimers > 0
      modifies this`incomingMessages, ids
      ensures incomingMessages == old(incomingMessages) + [
        ChatMessage(old(ids.next), IncomingText(textChoice), now, false, IncomingSender(sample, senderChoice))]
      ensures ids.next == old(ids.next) + 1
    {
      var message := NewChatMessage(ids, IncomingText(textChoice), now, false, IncomingSender(sample, senderChoice));
      incomingMessages := incomingMessages + [message];
    }

    /**
     * A status generator fires (`simulateStatusUpdate()`): the drawn sample user's id is mapped to
     * the drawn flag, so the map gains at most one key.
     */
    method SimulateStatusUpdate(choice: nat, isOnline: bool)
      requires Valid() && statusTimers > 0
      modifies this`userStatusUpdates
      ensures Valid()
      ensures userStatusUpdates == match RandomElement(sample, choice)
        case Some(u) => old(userStatusUpdates)[u.id := isOnline]
        case None => old(userStatusUpdates)
      ensures old(userStatusUpdates).Keys <= userStatusUpdates.Keys
      ensures |userStatusUpdates.Keys - old(userStatusUpdates).Keys| <= 1
    {
      var picked := RandomElement(sample, choice);
      if picked.Some? {
        var u := picked.value;
        assert u in sample;
        var i :| 0 <= i < |sample| && sample[i] == u;
        userStatusUpdates := userStatusUpdates[u.id := isOnline];
        assert userStatusUpdates.Keys - old(userStatusUpdates).Keys <= {u.id};
      }
    }

    /**
     * `disconnect()`: the referenced generators stop and the status is `.disconnected`. Calling it
     * again changes nothing.
     */
    method Disconnect()
      requires Valid()
      modifies this`connectionStatus, this`messageTimers, this`messageTimerHeld, this`statusTimers,
               this`statusTimerHeld
      ensures Valid()
      ensures connectionStatus == Disconnected
      ensures !messageTimerHeld && !statusTimerHeld
      ensures messageTimers == old(messageTimers) - (if old(messageTimerHeld) then 1 else 0)
      ensures statusTimers == old(statusTimers) - (if old(statusTimerHeld) then 1 else 0)
      ensures old(connectionStatus) == Disconnected && !old(messageTimerHeld) && !old(statusTimerHeld)
        ==> unchanged(this)
    {
      if messageTimerHeld {
        messageTimers := messageTimers - 1;
        messageTimerHeld := false;
      }
      if statusTimerHeld {
        statusTimers := statusTimers - 1;
        statusTimerHeld := false;
      }
      connectionStatus := Disconnected;
    }

    /** `reconnect()`: a disconnect followed by a fresh connection attempt. */
    method Reconnect()
      requires Valid()
      modifies this`connectionStatus, this`pendingConnects, this`messageTimers, this`messageTimerHeld,
               this`statusTimers, this`statusTimerHeld
      ensures Valid()
      ensures connectionStatus == Connecting
      ensures pendingConnects == old(pendingConnects) + 1
      ensures !messageTimerHeld && !statusTimerHeld
      ensures messageTimers == old(messageTimers) - (if old(messageTimerHeld) then 1 else 0)
      ensures statusTimers == old(statusTimers) - (if old(statusTimerHeld) then 1 else 0)
    {
      Disconnect();
      SetupRealtimeConnection();
    }
  }

  /** Connect, then disconnect: no generator is left running and no callback is pending. */
  method ConnectThenDisconnect(ids: UuidSource, sample: seq<User>) returns (s: RealtimeService)
    ensures fresh(s) && s.Valid()
    ensures s.connectionStatus == Disconnected && s.pendingConnects == 0
    ensures s.messageTimers == 0 && s.statusTimers == 0
  {
    s := new RealtimeService(ids, sample);
    s.ConnectDelayElapsed();
    s.Disconnect();
    s.Disconnect();
  }

  /**
   * Reconnecting inside the one-second connect window leaves two callbacks pending; once both
   * have run, a disconnect stops only the generators the service still references, and one of
   * each keeps firing.
   */
  method ReconnectWhileConnecting(ids: UuidSource, sample: seq<User>) returns (s: RealtimeService)
    ensures fresh(s) && s.Valid()
    ensures s.connectionStatus == Disconnected
    ensures s.messageTimers == 1 && s.statusTimers == 1
  {
    s := new RealtimeService(ids, sample);
    s.Reconnect();
    s.ConnectDelayElapsed();
    s.ConnectDelayElapsed();
    s.Disconnect();
  }
}
