# StrollMiniApp core, modelled in Dafny

StrollMiniApp is a SwiftUI dating-chat demo. Its core is the roster controller
`StrollViewModel`, which keeps these parts of the roster up to date:

- it loads and periodically refreshes a list of users from a simulated `NetworkService`;
- it filters the list by a debounced search text and counts the users online;
- it applies status changes pushed by a simulated realtime socket;
- it answers user intents such as selecting, toggling, messaging and swiping;
- it logs every interaction to an analytics service.

Around it sit these pieces:

- the records `User` and `ChatMessage`, with their samples, and the `ChatTab` enumeration;
- the three services in `NetworkService.swift`;
- the state and rules of the two tab bars;
- the hex colour decoder and the connection-status colour in `ContentView.swift`.

The model keeps the source's form. Records are datatypes. Objects whose fields change
(`StrollViewModel`, `RealtimeService`, `AnalyticsService`, `TabNavigationCoordinator`,
`TabBarController`) are classes. Their methods carry `modifies` frames and state their new
state in full.

Every `UUID()` draws from one `UuidSource` counter. Each construction of a `User`,
`ChatMessage`, interaction or tab item therefore gets an id never seen before. Several
behaviours of the source follow from this:

- toggling a user never changes the roster;
- the tab items compare by identity only;
- a rebuilt roster entry is a new record.

Combine pipelines, timers and delays become event methods. Each event method is the code that
runs when its publisher delivers. Random draws and the clock (`now`) are parameters.

Files: `common.dfy`, `user.dfy`, `chat_message.dfy`, `network_service.dfy`,
`realtime_service.dfy`, `analytics_service.dfy`, `roster.dfy`, `stroll_view_model.dfy`,
`tab_bar.dfy`, `tab_navigation.dfy`, `content_view.dfy`.

## Model

| member | source | states |
|---|---|---|
| Common.UuidSource.Fresh | StrollMiniApp/Models/User.swift:11 | `UUID()` hands out an id never handed out before |
| Common.RandomElement | StrollMiniApp/Services/NetworkService.swift:144 | `randomElement()` is nil exactly for an empty collection, and otherwise an element of it |
| Common.Kept | StrollMiniApp/ViewModels/StrollViewModel.swift:67-70 | `filter` keeps exactly the elements that pass the predicate, and never grows the sequence |
| Common.KeptIdempotent | StrollMiniApp/ViewModels/StrollViewModel.swift:67-70 | filtering twice with one predicate gives what filtering once gives |
| Common.KeptAll | StrollMiniApp/ViewModels/StrollViewModel.swift:246 | a filter leaves a sequence unchanged if and only if every element passes |
| Common.KeptAppend | StrollMiniApp/ViewModels/StrollViewModel.swift:78-80 | filtering distributes over concatenation, so order is kept |
| UserModel.NewUser | StrollMiniApp/Models/User.swift:10-17 | the memberwise initializer stores its arguments under a fresh id |
| UserModel.FirstIndexOfId | StrollMiniApp/ViewModels/StrollViewModel.swift:175 | `firstIndex(where: id ==)` is nil if and only if no entry has the id; otherwise it is the least index holding it |
| UserModel.FreshIdNotFound | StrollMiniApp/Models/User.swift:11 | an id not yet handed out is found in no roster built from earlier ids |
| UserModel.MakeSampleUsers | StrollMiniApp/Models/User.swift:19-25 | `sampleUsers` is five constructions in order, drawing five consecutive fresh ids |
| UserModel.SampleUsers | StrollMiniApp/Models/User.swift:19-25 | `User.sampleUsers` built at one instant from consecutive ids; its content is stated by `SampleUsersShape` and `SampleUsersPresence` |
| UserModel.SampleUsersShape | StrollMiniApp/Models/User.swift:19-25 | the sample roster is Amanda, Malte, Jessica, Sila and Marie, with consecutive distinct ids |
| UserModel.SampleUsersPresence | StrollMiniApp/Models/User.swift:20-24 | Amanda, Jessica and Marie are online and seen now; Malte and Sila are offline, seen 3600 s and 7200 s earlier |
| ChatMessageModel.NewChatMessage | StrollMiniApp/Models/ChatMessage.swift:10-15 | the memberwise initializer stores its arguments under a fresh id |
| ChatMessageModel.SampleMessages | StrollMiniApp/Models/ChatMessage.swift:17-22 | `ChatMessage.sampleMessages` built at one instant from consecutive ids; its content is stated by `SampleConversation` |
| ChatMessageModel.SampleConversation | StrollMiniApp/Models/ChatMessage.swift:17-22 | the sample conversation alternates Jessica and "You", signs only the current user's messages "You", and rises 100 s per message from an hour ago |
| ChatMessageModel.FromRawValue | StrollMiniApp/Models/ChatMessage.swift:25-27 | a tab parsed from a string has that string as its raw value |
| ChatMessageModel.RawValue | StrollMiniApp/Models/ChatMessage.swift:25-27 | the raw values "Chats" and "Pending"; `ChatTabRoundTrip` proves them inverse to `FromRawValue` |
| ChatMessageModel.Title | StrollMiniApp/Models/ChatMessage.swift:29-31 | `title` is the raw value, as `ChatTabRoundTrip` states |
| ChatMessageModel.ChatTabRoundTrip | StrollMiniApp/Models/ChatMessage.swift:25-31 | raw values round-trip, `title` is the raw value, and `allCases` lists both tabs once |
| NetworkService.ErrorDescription | StrollMiniApp/Services/NetworkService.swift:23-34 | each fixed kind has its own text; a transport error shows its cause's description |
| NetworkService.FixedDescriptionsDistinct | StrollMiniApp/Services/NetworkService.swift:23-34 | two fixed kinds have the same description if and only if they are the same kind |
| NetworkService.FetchUsers | StrollMiniApp/Services/NetworkService.swift:41-47 | a fetch always succeeds, with the sample roster |
| NetworkService.UpdateUserStatus | StrollMiniApp/Services/NetworkService.swift:49-69 | the update succeeds if and only if a sample user has the id; on success the result is that user's data with the new status, `lastSeen` is now only when online, and the id is fresh; otherwise the error is `.noData` |
| NetworkService.UpdatedRecordUnknown | StrollMiniApp/Services/NetworkService.swift:53-64 | asking to update a record this service returned always fails with `.noData` |
| NetworkService.SendMessage | StrollMiniApp/Services/NetworkService.swift:71-84 | sending always succeeds with a message of that text from the current user, signed "You" |
| Realtime.IncomingText | StrollMiniApp/Services/NetworkService.swift:136-144 | a simulated message's text is one of the five canned texts |
| Realtime.IncomingSender | StrollMiniApp/Services/NetworkService.swift:149 | the sender is a sample user's name, or "Someone" for an empty roster |
| Realtime.RealtimeService.constructor | StrollMiniApp/Services/NetworkService.swift:104-106 | a new service is connecting, with one connect callback pending and no generators |
| Realtime.RealtimeService.SetupRealtimeConnection | StrollMiniApp/Services/NetworkService.swift:112-121 | the status becomes connecting and one more connect callback is pending |
| Realtime.RealtimeService.ConnectDelayElapsed | StrollMiniApp/Services/NetworkService.swift:116-120 | the callback sets connected and arms one new generator of each kind, which the service then references |
| Realtime.RealtimeService.StartMessageSimulation | StrollMiniApp/Services/NetworkService.swift:123-127 | one more message generator runs; an earlier one is not stopped |
| Realtime.RealtimeService.StartStatusUpdates | StrollMiniApp/Services/NetworkService.swift:129-133 | one more status generator runs; an earlier one is not stopped |
| Realtime.RealtimeService.SimulateIncomingMessage | StrollMiniApp/Services/NetworkService.swift:135-153 | exactly one message is appended: a canned text from a sample user, not from the current user |
| Realtime.RealtimeService.SimulateStatusUpdate | StrollMiniApp/Services/NetworkService.swift:155-159 | the drawn sample user's id maps to the drawn flag; the map gains at most one key, and only sample ids |
| Realtime.RealtimeService.Disconnect | StrollMiniApp/Services/NetworkService.swift:161-165 | the referenced generators stop and the status is disconnected; a second call changes nothing |
| Realtime.RealtimeService.Reconnect | StrollMiniApp/Services/NetworkService.swift:167-170 | a disconnect, then connecting again with one more pending callback |
| Realtime.ConnectThenDisconnect | StrollMiniApp/Services/NetworkService.swift:112-165 | connecting and then disconnecting leaves no generator running |
| Realtime.ReconnectWhileConnecting | StrollMiniApp/Services/NetworkService.swift:112-170 | reconnecting within the connect delay leaves one generator of each kind running after a disconnect |
| Analytics.Tally | StrollMiniApp/Services/NetworkService.swift:196-202 | a kind's tally never exceeds the log's length |
| Analytics.TallyAppend | StrollMiniApp/Services/NetworkService.swift:217-239 | appending an interaction raises its own kind's tally by one and no other |
| Analytics.TallyMonotone | StrollMiniApp/Services/NetworkService.swift:217-226 | tallies never decrease as the log grows |
| Analytics.AnalyticsService.constructor | StrollMiniApp/Services/NetworkService.swift:196-208 | a session starts now with an empty log and zero counters |
| Analytics.AnalyticsService.TrackInteraction | StrollMiniApp/Services/NetworkService.swift:217-226 | exactly one interaction is appended, every counter still equals its kind's count in the log, and the session start is kept |
| Analytics.AnalyticsService.UpdateMetrics | StrollMiniApp/Services/NetworkService.swift:228-239 | a profile view, message or search raises its own counter by one; swipes change none |
| Roster.SearchResults | StrollMiniApp/ViewModels/StrollViewModel.swift:64-71 | an empty text gives the roster; otherwise exactly the users whose name or bio contains the text, ignoring case |
| Roster.ContainsIgnoringCase | StrollMiniApp/ViewModels/StrollViewModel.swift:68-69 | the text occurs, up to case, at some position of the string |
| Roster.ContainsSubstring | StrollMiniApp/ViewModels/StrollViewModel.swift:68-69 | a text held verbatim is found; a text longer than the string never is |
| Roster.SearchIdempotent | StrollMiniApp/ViewModels/StrollViewModel.swift:64-71 | searching the results again with the same text changes nothing |
| Roster.SearchKeepsOrder | StrollMiniApp/ViewModels/StrollViewModel.swift:67-70 | the results keep roster order |
| Roster.SearchIgnoresCase | StrollMiniApp/ViewModels/StrollViewModel.swift:68-69 | a text typed in another case finds the same users |
| Roster.ContainsIgnoresCase | StrollMiniApp/ViewModels/StrollViewModel.swift:68-69 | whether a text occurs does not depend on the case the text is written in |
| Roster.CountOnline | StrollMiniApp/ViewModels/StrollViewModel.swift:78-80 | the online count never exceeds the roster size |
| Roster.CountOnlineAppend | StrollMiniApp/ViewModels/StrollViewModel.swift:78-80 | the online count is additive over the roster |
| Roster.SampleOnlineCount | StrollMiniApp/Models/User.swift:20-24 | three sample users are online |
| Roster.WithoutId | StrollMiniApp/ViewModels/StrollViewModel.swift:246 | `removeAll` leaves no entry with the id and keeps every other entry |
| Roster.WithoutIdKeepsOrder | StrollMiniApp/ViewModels/StrollViewModel.swift:246 | removal keeps the order of the remaining users |
| Roster.WithoutAbsentId | StrollMiniApp/ViewModels/StrollViewModel.swift:246 | removing an id nobody has changes nothing |
| Roster.KeyHandled | StrollMiniApp/ViewModels/StrollViewModel.swift:174-185 | handling one more key of the update map keeps the roster in the handled-keys relation to the original |
| Roster.AbsentUpdatesChangeNothing | StrollMiniApp/ViewModels/StrollViewModel.swift:173-186 | updates for ids the roster does not hold change nothing |
| Roster.UpdatedEntriesAreNew | StrollMiniApp/ViewModels/StrollViewModel.swift:176-183 | a rebuilt entry is a new record, found under no earlier id |
| Roster.SameIdPositions | StrollMiniApp/ViewModels/StrollViewModel.swift:175 | rosters that hold an id at the same positions find it at the same index |
| ViewModels.SwipeInteraction | StrollMiniApp/ViewModels/StrollViewModel.swift:240-241 | a left swipe logs `.swipeLeft`, a right swipe `.swipeRight` |
| ViewModels.StrollViewModel.constructor | StrollMiniApp/ViewModels/StrollViewModel.swift:35-44 | the services start: realtime connecting with one pending callback, no generators, empty buffer and status map; analytics with an empty log and zero counters from now. The status mirrors connecting, a search is due, and the first load is in flight with no error |
| ViewModels.StrollViewModel.AssignUsers | StrollMiniApp/ViewModels/StrollViewModel.swift:77-82 | every new roster comes with its online count |
| ViewModels.StrollViewModel.SetSearchText | StrollMiniApp/ViewModels/StrollViewModel.swift:53-54 | an edit restarts the debounce |
| ViewModels.StrollViewModel.SearchDebounceElapsed | StrollMiniApp/ViewModels/StrollViewModel.swift:53-74 | a repeated text does nothing; a new one logs a search if non-empty, drawing one id, and sets the filtered list to the search results |
| ViewModels.StrollViewModel.LoadUsers | StrollMiniApp/ViewModels/StrollViewModel.swift:133-137 | loading, no error, and one more fetch in flight |
| ViewModels.StrollViewModel.LoadCompleted | StrollMiniApp/ViewModels/StrollViewModel.swift:85-91 | loading ends; a value sets roster, filter and the first user, with no error; a failure keeps them and shows its description |
| ViewModels.StrollViewModel.RefreshUsersInBackground | StrollMiniApp/ViewModels/StrollViewModel.swift:155-160 | nothing happens while loading; otherwise refreshing, with one more fetch in flight |
| ViewModels.StrollViewModel.RefreshCompleted | StrollMiniApp/ViewModels/StrollViewModel.swift:162-169 | refreshing ends; a value replaces only the roster; a failure is swallowed |
| ViewModels.StrollViewModel.HandleUserStatusUpdates | StrollMiniApp/ViewModels/StrollViewModel.swift:173-186 | each key's first roster entry is rebuilt in place with that status, each under its own fresh id; every other entry is kept; exactly one id is drawn per rebuilt entry |
| ViewModels.StrollViewModel.ApplyStatusUpdate | StrollMiniApp/ViewModels/StrollViewModel.swift:175-184 | one key: the first entry with the id, if any, is replaced by a new record with the status, last seen now when online |
| ViewModels.StrollViewModel.SelectUser | StrollMiniApp/ViewModels/StrollViewModel.swift:199-202 | the user is selected and one profile view of it is logged under the one id drawn |
| ViewModels.StrollViewModel.ApplyToggleResult | StrollMiniApp/ViewModels/StrollViewModel.swift:207-218 | a result replaces the first entry with its id, if any; an error shows its description |
| ViewModels.StrollViewModel.ToggleUserOnlineStatus | StrollMiniApp/ViewModels/StrollViewModel.swift:204-220 | the roster never changes; a user who is not a sample user gets "No data received" |
| ViewModels.StrollViewModel.ApplySendResult | StrollMiniApp/ViewModels/StrollViewModel.swift:225-235 | success logs one sent message to that user, drawing one id; an error shows its description and draws none |
| ViewModels.StrollViewModel.SendMessage | StrollMiniApp/ViewModels/StrollViewModel.swift:222-237 | sending never shows an error and always logs one sent message; two ids are drawn, the message's and the interaction's |
| ViewModels.StrollViewModel.SwipeUser | StrollMiniApp/ViewModels/StrollViewModel.swift:239-247 | one swipe of that direction is logged under the one id drawn, then every entry with the user's id leaves the roster |
| ViewModels.StrollViewModel.ClearUnreadMessages | StrollMiniApp/ViewModels/StrollViewModel.swift:253-255 | the unread count is zero |
| ViewModels.StrollViewModel.ClockTick | StrollMiniApp/ViewModels/StrollViewModel.swift:188-192 | the clock shows the tick's time |
| ViewModels.StrollViewModel.ReconnectRealtime | StrollMiniApp/ViewModels/StrollViewModel.swift:249-251 | the service reconnects as `Reconnect` states (held generators stop, one more pending callback, buffer and status map kept) and the mirrored status is connecting |
| ViewModels.StrollViewModel.RealtimeConnectElapsed | StrollMiniApp/ViewModels/StrollViewModel.swift:114-116 | the connect callback is consumed and arms one generator of each kind; the mirrored status is connected |
| ViewModels.StrollViewModel.RealtimeMessageTick | StrollMiniApp/ViewModels/StrollViewModel.swift:119-123 | exactly the drawn message is appended, the generators stay, and the unread count is the buffer's new size |
| ViewModels.StrollViewModel.RealtimeStatusTick | StrollMiniApp/ViewModels/StrollViewModel.swift:126-130 | the drawn sample id maps to the drawn flag, the generators stay, and the whole map is applied to the roster, drawing one id per rebuilt entry |
| ViewModels.LoadSampleRoster | StrollMiniApp/ViewModels/StrollViewModel.swift:133-152 | after the first load the sample roster is listed, its first user selected, three users online and no error shown |
| ViewModels.ConnectThenReceiveTwo | StrollMiniApp/ViewModels/StrollViewModel.swift:112-123 | after the connect callback two generator firings deliver two distinct canned messages from others, and both count as unread |
| TabBar.Digits | StrollMiniApp/Views/TabBarController.swift:176 | `"\(n)"` is a non-empty string of decimal digits without a leading zero |
| TabBar.DigitsRoundTrip | StrollMiniApp/Views/TabBarController.swift:176 | the digits read back as the number |
| TabBar.DecimalString | StrollMiniApp/Views/TabBarController.swift:176 | a minus sign exactly for negative numbers, then digits that read back as the magnitude |
| TabBar.BadgeLabel | StrollMiniApp/Views/TabBarController.swift:176 | the label is "99+" exactly when the count exceeds 99, and otherwise the count in decimal |
| TabBar.BadgeLabelReadsBack | StrollMiniApp/Views/TabBarController.swift:176 | a label for 0 to 99 reads back as its count |
| TabBar.BadgeWidth | StrollMiniApp/Views/TabBarController.swift:174 | the width is 24 exactly for the "99+" label, and 18 otherwise |
| TabBar.ShownBadgeLabel | StrollMiniApp/Views/TabBarController.swift:136 | a shown badge reads "99+" or one or two digits |
| TabBar.BadgeShown | StrollMiniApp/Views/TabBarController.swift:136 | a badge is drawn only for a present, positive count |
| TabBar.TabIcon | StrollMiniApp/Views/TabBarController.swift:129 | the selected icon shows only when the item is selected and has one; otherwise the plain icon |
| TabBar.NewTabItem | StrollMiniApp/Views/TabBarController.swift:4-18 | an item stores its arguments under a fresh id |
| TabBar.SameTab | StrollMiniApp/Views/TabBarController.swift:20-22 | `==` on items compares ids only, so `TwoItemsDiffer` shows two items built alike still differ |
| TabBar.TwoItemsDiffer | StrollMiniApp/Views/TabBarController.swift:20-22 | two items built alike are still different items |
| TabBar.TabBarController.constructor | StrollMiniApp/Views/TabBarController.swift:40-48 | a new bar keeps its items and shows tab 0 |
| TabBar.TabBarController.TapItem | StrollMiniApp/Views/TabBarController.swift:90-93 | tapping an item selects it, and then only that item is selected |
| AdvancedTabBar.DeepLinkTab | StrollMiniApp/Views/AdvancedTabBarController.swift:52-67 | a path opens a tab if and only if it is one of the four deep-link paths, and then the tab at that path's position |
| AdvancedTabBar.DeepLinkRoundTrip | StrollMiniApp/Views/AdvancedTabBarController.swift:55-66 | each of tabs 0 to 3 is opened by its own path and by no other |
| AdvancedTabBar.BadgesAfter | StrollMiniApp/Views/AdvancedTabBarController.swift:32-38 | a positive count is stored; nil or a count of zero or less removes the key; other keys are unchanged |
| AdvancedTabBar.BadgesAfterPositive | StrollMiniApp/Views/AdvancedTabBarController.swift:33-37 | every stored count stays positive |
| AdvancedTabBar.BadgeShownIffStored | StrollMiniApp/Views/AdvancedTabBarController.swift:214 | with positive counts, a tab shows a badge exactly when the map holds its index |
| AdvancedTabBar.BadgeFor | StrollMiniApp/Views/AdvancedTabBarController.swift:214 | the optional count `tabBadges[index]` handed to item `index`; `BadgeShownIffStored` states when it shows |
| AdvancedTabBar.StoredBadgeDisplay | StrollMiniApp/Views/AdvancedTabBarController.swift:284-345 | a stored count is drawn; it reads "99+" and is 24 wide exactly above 99, and otherwise reads back as the count in one or two digits, 18 wide |
| AdvancedTabBar.UpdateThenClear | StrollMiniApp/Views/AdvancedTabBarController.swift:32-38 | setting and then clearing a badge leaves the other badges as they were |
| AdvancedTabBar.BadgePayload | StrollMiniApp/Views/AdvancedTabBarController.swift:75-78 | a notification applies only when both `tabIndex` and `count` are present `Int`s |
| AdvancedTabBar.TabNavigationCoordinator.constructor | StrollMiniApp/Views/AdvancedTabBarController.swift:8-10 | tab 0, no badges, bar shown |
| AdvancedTabBar.TabNavigationCoordinator.SwitchToTab | StrollMiniApp/Views/AdvancedTabBarController.swift:21-29 | the index is selected, unchecked, whether animated or not |
| AdvancedTabBar.TabNavigationCoordinator.UpdateBadge | StrollMiniApp/Views/AdvancedTabBarController.swift:32-38 | the badge map is updated as described above, and every stored count stays positive |
| AdvancedTabBar.TabNavigationCoordinator.SetTabBarHidden | StrollMiniApp/Views/AdvancedTabBarController.swift:41-49 | the hidden flag is the argument, whether animated or not |
| AdvancedTabBar.TabNavigationCoordinator.HandleDeepLink | StrollMiniApp/Views/AdvancedTabBarController.swift:52-67 | a known path selects its tab; any other path leaves the selection alone |
| AdvancedTabBar.TabNavigationCoordinator.OnBadgeNotification | StrollMiniApp/Views/AdvancedTabBarController.swift:71-81 | a well-formed notification updates that badge; any other changes nothing |
| AdvancedTabBar.NewEnhancedTabItem | StrollMiniApp/Views/AdvancedTabBarController.swift:86-112 | an enhanced item stores its arguments under a fresh id, which alone decides its equality |
| AdvancedTabBar.SameEnhancedTab | StrollMiniApp/Views/AdvancedTabBarController.swift:111-113 | `==` on enhanced items compares ids only |
| ContentView.LeadingSkip | StrollMiniApp/ContentView.swift:377 | the count of leading non-alphanumerics, up to the first alphanumeric |
| ContentView.TrailingKeep | StrollMiniApp/ContentView.swift:377 | the length up to the last alphanumeric |
| ContentView.Trim | StrollMiniApp/ContentView.swift:377 | the trimmed string is the slice from the first to the last alphanumeric, with only non-alphanumerics outside it |
| ContentView.TrimKeepsAlphanumerics | StrollMiniApp/ContentView.swift:377 | a string of alphanumerics only is not changed |
| ContentView.TrimIdempotent | StrollMiniApp/ContentView.swift:377 | trimming twice equals trimming once |
| ContentView.ChannelsFromHex | StrollMiniApp/ContentView.swift:381-390 | 3 and 6 digits are opaque, 3 digits scale each nibble by 17, and other lengths give (1, 1, 1, 0) |
| ContentView.ColorFromHex | StrollMiniApp/ContentView.swift:376-390 | the digit count is taken after trimming; other lengths give the fallback |
| ContentView.ChannelsInRange | StrollMiniApp/ContentView.swift:381-387 | a value that fits its digit count gives channels in 0..255 |
| ContentView.EightDigitsUnpack | StrollMiniApp/ContentView.swift:386-387 | eight digits decode a packed ARGB word back to its channels |
| ContentView.EightDigitsPack | StrollMiniApp/ContentView.swift:386-387 | the channels of eight digits pack back to the value |
| ContentView.SixDigitsAreOpaqueEight | StrollMiniApp/ContentView.swift:384-387 | six digits mean the same colour as eight digits prefixed by `ff` |
| ContentView.ThreeDigitsAreDoubledSix | StrollMiniApp/ContentView.swift:382-385 | three digits mean the same colour as six digits with each digit written twice |
| ContentView.BaseHexPurpleChannels | StrollMiniApp/ContentView.swift:370-372 | "#7d60db" trims to "7d60db" and decodes to (255, 125, 96, 219) |
| ContentView.StatusColorOf | StrollMiniApp/ContentView.swift:166-177 | green exactly when connected, yellow exactly when connecting, red exactly when disconnected or in error |

## Left out

- UI: SwiftUI bodies, layout, animations, gestures, haptics, the blur view and the corner path. The `animated` flags are accepted and have no effect.
- Floating point: the `Double / 255` sRGB conversion, `SwipeableCard`'s drag threshold, the wave animation, and `sessionMetrics.timeSpent` with its one-second timer.
- Time: `Date()` is the parameter `now`, whole seconds on an abstract clock. The sample records are built at one instant, not one `Date()` per record.
- Scheduling: the 300 ms debounce, the fetch and request latencies, the 1 s connect delay, and the 1 s, 10 s, 15 s and 30 s timers are event methods. The 3 s reconnect after a disconnect in `ContentView.swift` is `ReconnectRealtime`. The order in which concurrent deliveries arrive is whatever the caller chooses; no clock decides it.
- Toggle and send: the request and its answer are one event, not two.
- `deinit`: the view model's timer invalidation and the realtime service's disconnect on release are not modelled.
- Randomness: `randomElement`, `Bool.random` and the random fetch latency are choice parameters.
- Dictionary order: `handleUserStatusUpdates` walks the keys in an order it picks itself, and each key is looked up in the partly updated roster. Rebuilt entries carry ids issued after every key, so that roster finds each unhandled key where the original does (`Roster.UnhandledKeyFoundAlike`). The order therefore shows only in which fresh id each rebuilt entry receives, and the model leaves that open.
- Roster.ContainsIgnoringCase: ASCII case folding stands in for the locale-aware `localizedCaseInsensitiveContains`.
- ContentView.Trim: only ASCII letters and digits count as alphanumerics, not all of Unicode's.
- ContentView.ColorFromHex: the integer `Scanner.scanHexInt64` reads is an input, not parsed from the string. The 64-bit bound of `UInt64` is not imposed. A channel can exceed 255 only when that integer is larger than its digit count allows, and `ChannelsInRange` states when it cannot.
- AdvancedTabBar.BadgePayload: `NotificationCenter` is not modelled, and the notification's `userInfo` is an input. Only the `as? Int` test is kept, as the `IntValue` payload case.
- AdvancedTabBar.TabNavigationCoordinator.HandleDeepLink: takes the URL's path; URL parsing is not modelled.
- Content views of the tab items: the `AnyView` fields and the disabled-tab modifier are not modelled.
- `NetworkServiceProtocol` injection: the view model always uses the simulated `NetworkService`, as its default argument does. The real HTTP client, the base URL and the session are not modelled.
- The unused `UserService`, `DateFormatter` and `RelativeDateTimeFormatter`, the demo screens (`TabBarDemo.swift`, `TabContentViews.swift`, `ChatRowView.swift`, `UserCardView.swift`, `CircularProgressImageView.swift`) and the focus state of `InteractiveSearchView.swift` are not part of this model.
- The combined `isLoading || isRefreshing` publisher: its sink does nothing, so it is not modelled.
