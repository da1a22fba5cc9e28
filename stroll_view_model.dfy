/**
 * `StrollViewModel`, the roster controller. Its Combine pipelines become event methods: each
 * sink is the method that runs when its publisher delivers, with delays, timers and random draws
 * turned into calls and parameters. Every assignment to `users` also refreshes
 * `onlineUsersCount`, as the `$users` subscription does.
 */
module ViewModels {
  import opened Common
  import opened UserModel
  import opened ChatMessageModel
  import opened NetworkService
  import opened Realtime
  import opened Analytics
  import opened Roster

  datatype SwipeDirection = Left | Right

  /** `direction == .left ? .swipeLeft : .swipeRight`. */
  function SwipeInteraction(direction: SwipeDirection): (kind: InteractionType)
    ensures kind == SwipeLeft <==> direction == Left
    ensures kind in {SwipeLeft, SwipeRight}
  {
    if direction == Left then SwipeLeft else SwipeRight
  }

  class StrollViewModel {
    const ids: UuidSource
    /** `User.sampleUsers`, which the default `NetworkService` serves. */
    const sample: seq<User>
    const realtime: RealtimeService
    const analytics: AnalyticsService

    var users: seq<User>
    var currentUser: Option<User>
    var selectedTab: ChatTab
    var searchText: string
    var isLoading: bool
    var errorMessage: Option<string>
    var filteredUsers: seq<User>
    var onlineUsersCount: nat
    var currentTime: Time
    var connectionStatus: ConnectionStatus
    var unreadMessagesCount: nat
    var isRefreshing: bool

    /** A search-text edit is waiting for its 300 ms debounce window to close. */
    var searchPending: bool
    /** The last text `removeDuplicates` let through, if any. */
    var lastSearch: Option<string>
    /** Fetches issued by `loadUsers` and by `refreshUsersInBackground` and not yet delivered. */
    var pendingLoads: nat
    var pendingRefreshes: nat

    ghost predicate Valid()
      reads this, ids, realtime, analytics
    {
      && realtime.ids == ids && realtime.sample == sample && analytics.ids == ids
      && realtime.Valid() && analytics.Valid()
      && Issued(sample, ids.next) && Issued(users, ids.next)
      && onlineUsersCount == CountOnline(users)
    }

    /**
     * `init()`: the services are created (the realtime one starts connecting), every binding
     * delivers its initial value, and `loadUsers()` issues the first fetch.
     */
    constructor(ids: UuidSource, sample: seq<User>, now: Time)
      requires Issued(sample, ids.next)
      ensures Valid() && fresh(realtime) && fresh(analytics)
      ensures this.ids == ids && this.sample == sample
      ensures users == [] && filteredUsers == [] && currentUser == None && onlineUsersCount == 0
      ensures searchText == [] && searchPending && lastSearch == None
      ensures isLoading && errorMessage == None && pendingLoads == 1
      ensures !isRefreshing && pendingRefreshes == 0
      ensures connectionStatus == Connecting && unreadMessagesCount == 0
      ensures analytics.userInteractions == [] && analytics.sessionMetrics == SessionMetrics(now, 0, 0, 0)
      ensures realtime.connectionStatus == Connecting && realtime.pendingConnects == 1
      ensures realtime.incomingMessages == [] && realtime.userStatusUpdates == map[]
      ensures realtime.messageTimers == 0 && !realtime.messageTimerHeld
      ensures realtime.statusTimers == 0 && !realtime.statusTimerHeld
    {
      this.ids := ids;
      this.sample := sample;
      realtime := new RealtimeService(ids, sample);
      analytics := new AnalyticsService(ids, now);
      users := [];
      currentUser := None;
      selectedTab := Chats;
      searchText := [];
      isLoading := false;
      errorMessage := None;
      filteredUsers := [];
      onlineUsersCount := 0;
      currentTime := now;
      connectionStatus := Disconnected;
      unreadMessagesCount := 0;
      isRefreshing := false;
      searchPending := true;
      lastSearch := None;
      pendingLoads := 0;
      pendingRefreshes := 0;
      new;
      connectionStatus := realtime.connectionStatus;
      LoadUsers();
    }

    /** An assignment to `users`, with the online count its subscription derives. */
    method AssignUsers(newUsers: seq<User>)
      modifies this`users, this`onlineUsersCount
      ensures users == newUsers && onlineUsersCount == CountOnline(newUsers)
    {
      users := newUsers;
      onlineUsersCount := CountOnline(users);
    }

    /** The search field is edited; the debounce window restarts. */
    method SetSearchText(text: string)
      modifies this`searchText, this`searchPending
      ensures searchText == text && searchPending
    {
      searchText := text;
      searchPending := true;
    }

    /**
     * The debounce window closes at `now`: the latest text goes on unless it equals the last one
     * let through. Going on, a non-empty text records one search event, and `filteredUsers`
     * becomes the search results over the current roster.
     */
    method SearchDebounceElapsed(now: Time)
      requires Valid() && searchPending
      modifies this`searchPending, this`lastSearch, this`filteredUsers, analytics, ids
      ensures Valid() && !searchPending
      ensures old(lastSearch) == Some(searchText) ==>
        && lastSearch == old(lastSearch) && filteredUsers == old(filteredUsers)
        && analytics.userInteractions == old(analytics.userInteractions)
      ensures old(lastSearch) != Some(searchText) ==>
        && lastSearch == Some(searchText)
        && filteredUsers == SearchResults(users, searchText)
        && analytics.userInteractions == old(analytics.userInteractions) +
             (if searchText == [] then [] else [UserInteraction(old(ids.next), Search, None, now)])
      ensures ids.next == old(ids.next) + (if old(lastSearch) != Some(searchText) && searchText != [] then 1 else 0)
      ensures analytics.sessionMetrics.sessionStart == old(analytics.sessionMetrics.sessionStart)
    {
      searchPending := false;
      if lastSearch != Some(searchText) {
        lastSearch := Some(searchText);
        if searchText != [] {
          analytics.TrackInteraction(Search, None, now);
        }
        filteredUsers := SearchResults(users, searchText);
      }
    }

    /** `loadUsers()` (also `refreshUsers()`): loading, no error, and one more fetch in flight. */
    method LoadUsers()
      requires Valid()
      modifies this`isLoading, this`errorMessage, this`pendingLoads
      ensures Valid()
      ensures isLoading && errorMessage == None && pendingLoads == old(pendingLoads) + 1
    {
      isLoading := true;
      errorMessage := None;
      pendingLoads := pendingLoads + 1;
    }

    /**
     * A `loadUsers` fetch delivers. A value replaces the roster and the filtered list and selects
     * the first user. Loading ends either way, which clears the error through the `$isLoading`
     * subscription; a failure then sets its description.
     */
    method LoadCompleted(result: Result<seq<User>, NetworkError>)
      requires Valid() && pendingLoads > 0
      requires result.Success? ==> Issued(result.value, ids.next)
      modifies this`users, this`onlineUsersCount, this`currentUser, this`filteredUsers,
               this`isLoading, this`errorMessage, this`pendingLoads
      ensures Valid()
      ensures !isLoading && pendingLoads == old(pendingLoads) - 1
      ensures result.Success? ==>
        && users == result.value && filteredUsers == result.value
        && currentUser == (if result.value == [] then None else Some(result.value[0]))
        && errorMessage == None
      ensures result.Failure? ==>
        && users == old(users) && filteredUsers == old(filteredUsers) && currentUser == old(currentUser)
        && errorMessage == Some(ErrorDescription(result.error))
    {
      if result.Success? {
        var fetched := result.value;
        AssignUsers(fetched);
        currentUser := if fetched == [] then None else Some(fetched[0]);
        filteredUsers := fetched;
      }
      isLoading := false;
      errorMessage := None;
      if result.Failure? {
        errorMessage := Some(ErrorDescription(result.error));
      }
      pendingLoads := pendingLoads - 1;
    }

    /** `refreshUsersInBackground()` (every 30 s): nothing while loading, else refreshing. */
    method RefreshUsersInBackground()
      requires Valid()
      modifies this`isRefreshing, this`pendingRefreshes
      ensures Valid()
      ensures old(isLoading) ==> isRefreshing == old(isRefreshing) && pendingRefreshes == old(pendingRefreshes)
      ensures !old(isLoading) ==> isRefreshing && pendingRefreshes == old(pendingRefreshes) + 1
    {
      if !isLoading {
        isRefreshing := true;
        pendingRefreshes := pendingRefreshes + 1;
      }
    }

    /**
     * A background fetch delivers: a value replaces the roster only (not `filteredUsers`, not the
     * loading flag, not the error); a failure is swallowed. Refreshing ends either way.
     */
    method RefreshCompleted(result: Result<seq<User>, NetworkError>)
      requires Valid() && pendingRefreshes > 0
      requires result.Success? ==> Issued(result.value, ids.next)
      modifies this`users, this`onlineUsersCount, this`isRefreshing, this`pendingRefreshes
      ensures Valid()
      ensures !isRefreshing && pendingRefreshes == old(pendingRefreshes) - 1
      ensures users == if result.Success? then result.value else old(users)
    {
      if result.Success? {
        AssignUsers(result.value);
      }
      isRefreshing := false;
      pendingRefreshes := pendingRefreshes - 1;
    }

    /**
     * `handleUserStatusUpdates(updates)`: for each key, in the dictionary's own order, the first
     * roster entry with that id is replaced, at the same index, by a new `User` with that status.
     */
    method HandleUserStatusUpdates(updates: map<Uuid, bool>, now: Time)
      requires Valid()
      requires forall k :: k in updates ==> k < ids.next
      modifies this`users, this`onlineUsersCount, ids
      ensures Valid()
      ensures StatusUpdatesApplied(old(users), users, updates, now, old(ids.next), ids.next)
      ensures ids.next == old(ids.next) + RebuiltCount(old(users), updates, updates.Keys, |old(users)|)
    {
      ghost var before := users;
      ghost var lo := ids.next;
      var remaining := updates.Keys;
      NothingRebuiltYet(before, updates, |before|);
      assert updates.Keys - remaining == {};
      while remaining != {}
        invariant remaining <= updates.Keys
        invariant lo <= ids.next
        invariant Valid()
        invariant StatusUpdatesAppliedFor(before, users, updates, updates.Keys - remaining, now, lo, ids.next)
        decreases remaining
      {
        var userId :| userId in remaining;
        ghost var done := updates.Keys - remaining;
        ghost var current := users;
        ghost var hi := ids.next;
        ApplyStatusUpdate(userId, updates[userId], now);
        KeyHandled(before, current, users, updates, done, now, lo, hi, ids.next, userId);
        remaining := remaining - {userId};
        assert updates.Keys - remaining == done + {userId};
      }
      assert updates.Keys - remaining == updates.Keys;
    }

    /**
     * One iteration of `handleUserStatusUpdates`: the first entry with id `userId`, if any, is
     * replaced in place by a new `User` with that status, last seen `now` when online.
     */
    method ApplyStatusUpdate(userId: Uuid, isOnline: bool, now: Time)
      requires Valid()
      modifies this`users, this`onlineUsersCount, ids
      ensures Valid()
      ensures |users| == |old(users)|
      ensures match FirstIndexOfId(old(users), userId)
        case None => users == old(users) && ids.next == old(ids.next)
        case Some(i) =>
          && users == old(users)[i := users[i]] && ids.next == old(ids.next) + 1
          && users[i].id == old(ids.next) && StatusApplied(old(users)[i], users[i], isOnline, now)
    {
      var found := FirstIndexOfId(users, userId);
      if found.Some? {
        var i := found.value;
        var u := users[i];
        var v := NewUser(ids, u.name, u.age, u.profileImageName, u.bio, isOnline,
                         if isOnline then now else u.lastSeen);
        AssignUsers(users[i := v]);
      }
    }

    /** `selectUser(user)` at `now`: selects it and records one profile view of it. */
    method SelectUser(user: User, now: Time)
      requires Valid()
      modifies this`currentUser, analytics, ids
      ensures Valid()
      ensures currentUser == Some(user)
      ensures analytics.userInteractions == old(analytics.userInteractions) + [UserInteraction(old(ids.next), ProfileView, Some(user.id), now)]
      ensures ids.next == old(ids.next) + 1
      ensures analytics.sessionMetrics.sessionStart == old(analytics.sessionMetrics.sessionStart)
    {
      currentUser := Some(user);
      analytics.TrackInteraction(ProfileView, Some(user.id), now);
    }

    /**
     * The handler of an `updateUserStatus` result: a returned user replaces the first roster entry
     * with its id, if there is one; an error sets its description.
     */
    method ApplyToggleResult(result: Result<User, NetworkError>)
      requires Valid()
      requires result.Success? ==> result.value.id < ids.next
      modifies this`users, this`onlineUsersCount, this`errorMessage
      ensures Valid()
      ensures result.Success? ==>
        && errorMessage == old(errorMessage)
        && users == match FirstIndexOfId(old(users), result.value.id)
             case Some(i) => old(users)[i := result.value]
             case None => old(users)
      ensures result.Failure? ==> users == old(users) && errorMessage == Some(ErrorDescription(result.error))
    {
      match result
      case Success(updated) =>
        var found := FirstIndexOfId(users, updated.id);
        if found.Some? {
          AssignUsers(users[found.value := updated]);
        }
      case Failure(e) =>
        errorMessage := Some(ErrorDescription(e));
    }

    /**
     * `toggleUserOnlineStatus(user)`, its request for `!user.isOnline` answered at `now`. For a
     * sample user the answer is a newly built record, whose fresh id no roster entry has, so the
     * roster never changes; any other user gets "No data received" and nothing is built.
     */
    method ToggleUserOnlineStatus(user: User, now: Time)
      requires Valid()
      modifies this`users, this`onlineUsersCount, this`errorMessage, ids
      ensures Valid()
      ensures users == old(users)
      ensures errorMessage == if IdOccurs(sample, user.id) then old(errorMessage) else Some("No data received")
      ensures ids.next == old(ids.next) + if IdOccurs(sample, user.id) then 1 else 0
    {
      var result;
      if FirstIndexOfId(sample, user.id).Some? {
        var freshId := ids.Fresh();
        result := UpdateUserStatus(sample, user.id, !user.isOnline, now, freshId);
        FreshIdNotFound(users, freshId, freshId);
      } else {
        result := UpdateUserStatus(sample, user.id, !user.isOnline, now, ids.next);
      }
      ApplyToggleResult(result);
    }

    /** The handler of a `sendMessage` result: success records one sent message, an error is shown. */
    method ApplySendResult(result: Result<ChatMessage, NetworkError>, user: User, now: Time)
      requires Valid()
      modifies this`errorMessage, analytics, ids
      ensures Valid()
      ensures result.Success? ==>
        && errorMessage == old(errorMessage)
        && analytics.userInteractions == old(analytics.userInteractions) + [UserInteraction(old(ids.next), MessagesSent, Some(user.id), now)]
      ensures result.Failure? ==>
        && errorMessage == Some(ErrorDescription(result.error))
        && analytics.userInteractions == old(analytics.userInteractions)
      ensures ids.next == old(ids.next) + (if result.Success? then 1 else 0)
      ensures analytics.sessionMetrics.sessionStart == old(analytics.sessionMetrics.sessionStart)
    {
      match result
      case Success(_) =>
        analytics.TrackInteraction(MessagesSent, Some(user.id), now);
      case Failure(e) =>
        errorMessage := Some(ErrorDescription(e));
    }

    /** `sendMessage(message, to: user)`, answered at `now`: it always succeeds and is counted. */
    method SendMessage(text: string, user: User, now: Time)
      requires Valid()
      modifies this`errorMessage, analytics, ids
      ensures Valid()
      ensures errorMessage == old(errorMessage)
      ensures analytics.userInteractions == old(analytics.userInteractions) + [UserInteraction(old(ids.next) + 1, MessagesSent, Some(user.id), now)]
      ensures ids.next == old(ids.next) + 2
      ensures analytics.sessionMetrics.sessionStart == old(analytics.sessionMetrics.sessionStart)
    {
      var freshId := ids.Fresh();
      var result := NetworkService.SendMessage(text, user.id, now, freshId);
      ApplySendResult(result, user, now);
    }

    /**
     * `swipeUser(user, direction:)` at `now`: one swipe event of that direction, then every entry
     * with the user's id leaves the roster; `filteredUsers` is not touched.
     */
    method SwipeUser(user: User, direction: SwipeDirection, now: Time)
      requires Valid()
      modifies this`users, this`onlineUsersCount, analytics, ids
      ensures Valid()
      ensures users == WithoutId(old(users), user.id)
      ensures analytics.userInteractions == old(analytics.userInteractions) + [UserInteraction(old(ids.next), SwipeInteraction(direction), Some(user.id), now)]
      ensures ids.next == old(ids.next) + 1
      ensures analytics.sessionMetrics.sessionStart == old(analytics.sessionMetrics.sessionStart)
    {
      analytics.TrackInteraction(SwipeInteraction(direction), Some(user.id), now);
      AssignUsers(WithoutId(users, user.id));
    }

    /** `clearUnreadMessages()`: the badge count drops to zero; the messages stay. */
    method ClearUnreadMessages()
      modifies this`unreadMessagesCount
      ensures unreadMessagesCount == 0
    {
      unreadMessagesCount := 0;
    }

    /** The one-second clock tick of `startTimeUpdates()`. */
    method ClockTick(now: Time)
      modifies this`currentTime
      ensures currentTime == now
    {
      currentTime := now;
    }

    /** `reconnectRealtime()`: the service reconnects and the mirrored status follows it. */
    method ReconnectRealtime()
      requires Valid()
      modifies realtime, this`connectionStatus
      ensures Valid()
      ensures connectionStatus == Connecting && realtime.connectionStatus == Connecting
      ensures realtime.pendingConnects == old(realtime.pendingConnects) + 1
      ensures !realtime.messageTimerHeld && !realtime.statusTimerHeld
      ensures realtime.messageTimers == old(realtime.messageTimers) - (if old(realtime.messageTimerHeld) then 1 else 0)
      ensures realtime.statusTimers == old(realtime.statusTimers) - (if old(realtime.statusTimerHeld) then 1 else 0)
      ensures realtime.incomingMessages == old(realtime.incomingMessages)
      ensures realtime.userStatusUpdates == old(realtime.userStatusUpdates)
    {
      realtime.Reconnect();
      connectionStatus := realtime.connectionStatus;
    }

    /** The realtime service's connect callback runs; the mirrored status follows it. */
    method RealtimeConnectElapsed()
      requires Valid() && realtime.pendingConnects > 0
      modifies realtime, this`connectionStatus
      ensures Valid()
      ensures connectionStatus == Connected && realtime.connectionStatus == Connected
      ensures realtime.pendingConnects == old(realtime.pendingConnects) - 1
      ensures realtime.messageTimers == old(realtime.messageTimers) + 1 && realtime.messageTimerHeld
      ensures realtime.statusTimers == old(realtime.statusTimers) + 1 && realtime.statusTimerHeld
      ensures realtime.incomingMessages == old(realtime.incomingMessages)
      ensures realtime.userStatusUpdates == old(realtime.userStatusUpdates)
    {
      realtime.ConnectDelayElapsed();
      connectionStatus := realtime.connectionStatus;
    }

    /** A realtime message generator fires: the unread count becomes the buffer's new size. */
    method RealtimeMessageTick(textChoice: nat, senderChoice: nat, now: Time)
      requires Valid() && realtime.messageTimers > 0
      modifies realtime, ids, this`unreadMessagesCount
      ensures Valid()
      ensures realtime.incomingMessages == old(realtime.incomingMessages) + [
        ChatMessage(old(ids.next), IncomingText(textChoice), now, false, IncomingSender(sample, senderChoice))]
      ensures ids.next == old(ids.next) + 1
      ensures unreadMessagesCount == |realtime.incomingMessages|
      ensures realtime.connectionStatus == old(realtime.connectionStatus)
      ensures realtime.pendingConnects == old(realtime.pendingConnects)
      ensures realtime.messageTimers == old(realtime.messageTimers)
      ensures realtime.messageTimerHeld == old(realtime.messageTimerHeld)
      ensures realtime.statusTimers == old(realtime.statusTimers)
      ensures realtime.statusTimerHeld == old(realtime.statusTimerHeld)
      ensures realtime.userStatusUpdates == old(realtime.userStatusUpdates)
    {
      realtime.SimulateIncomingMessage(textChoice, senderChoice, now);
      unreadMessagesCount := |realtime.incomingMessages|;
    }

    /**
     * A realtime status generator fires at `now`: the service's map gains or changes one entry and
     * the whole map is applied to the roster.
     */
    method RealtimeStatusTick(choice: nat, isOnline: bool, now: Time)
      requires Valid() && realtime.statusTimers > 0
      modifies realtime, ids, this`users, this`onlineUsersCount
      ensures Valid()
      ensures realtime.userStatusUpdates == match RandomElement(sample, choice)
        case Some(u) => old(realtime.userStatusUpdates)[u.id := isOnline]
        case None => old(realtime.userStatusUpdates)
      ensures StatusUpdatesApplied(old(users), users, realtime.userStatusUpdates, now, old(ids.next), ids.next)
      ensures ids.next == old(ids.next) + RebuiltCount(old(users), realtime.userStatusUpdates, realtime.userStatusUpdates.Keys, |old(users)|)
      ensures realtime.connectionStatus == old(realtime.connectionStatus)
      ensures realtime.incomingMessages == old(realtime.incomingMessages)
      ensures realtime.pendingConnects == old(realtime.pendingConnects)
      ensures realtime.messageTimers == old(realtime.messageTimers)
      ensures realtime.messageTimerHeld == old(realtime.messageTimerHeld)
      ensures realtime.statusTimers == old(realtime.statusTimers)
      ensures realtime.statusTimerHeld == old(realtime.statusTimerHeld)
    {
      realtime.SimulateStatusUpdate(choice, isOnline);
      forall k | k in realtime.userStatusUpdates
        ensures k < ids.next
      {
        var i :| 0 <= i < |sample| && sample[i].id == k;
        assert sample[i] in sample;
      }
      HandleUserStatusUpdates(realtime.userStatusUpdates, now);
    }
  }

  /**
   * The connect callback runs and then the message generator fires twice, with draws of the
   * caller's choosing: both messages arrive and both count as unread.
   */
  method ConnectThenReceiveTwo(vm: StrollViewModel, now: Time, first: nat, second: nat)
      returns (received: seq<ChatMessage>)
    requires vm.Valid() && vm.realtime.pendingConnects > 0
    modifies vm, vm.realtime, vm.ids
    ensures vm.Valid() && vm.connectionStatus == Connected
    ensures vm.realtime.incomingMessages == old(vm.realtime.incomingMessages) + received
    ensures |received| == 2 && received[0].id != received[1].id
    ensures forall m :: m in received ==> !m.isFromCurrentUser && m.text in CannedMessages
    ensures vm.unreadMessagesCount == |vm.realtime.incomingMessages|
  {
    var start := vm.realtime.incomingMessages;
    vm.RealtimeConnectElapsed();
    vm.RealtimeMessageTick(first, first, now);
    vm.RealtimeMessageTick(second, second, now);
    received := vm.realtime.incomingMessages[|start|..];
    assert vm.realtime.incomingMessages == start + received;
  }

  /**
   * Loading the sample roster: everything is listed, the first sample user is selected, three
   * users are online and no error is shown.
   */
  method LoadSampleRoster(ids: UuidSource, now: Time) returns (vm: StrollViewModel)
    modifies ids
    ensures fresh(vm) && vm.Valid()
    ensures vm.users == SampleUsers(old(ids.next), now) && vm.filteredUsers == vm.users
    ensures vm.sample == vm.users && |vm.users| == 5
    ensures vm.currentUser == Some(vm.users[0]) && vm.onlineUsersCount == 3
    ensures !vm.isLoading && vm.errorMessage == None
  {
    var sample := MakeSampleUsers(ids, now);
    SampleUsersShape(old(ids.next), now);
    SampleOnlineCount(old(ids.next), now);
    vm := new StrollViewModel(ids, sample, now);
    vm.LoadCompleted(FetchUsers(sample));
  }
}
