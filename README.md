# Two-player escape game: state holders in Dafny

This project models the client-side state of a small two-player online escape
game built on Unity and Photon PUN. Six components are modelled, one Dafny
module each:

- **Flags** (`FlagManager`): each client keeps its own flags (local) and a
  mirror of the other client's flags (remote). A change is announced once and
  sent once to the other client.
- **Lobby** (`MatchingRoomController`): ready toggling, the per-actor ready
  dictionary, and the start check. The master client closes the room and loads
  the game once two players are present and every listed player is ready.
- **Inventory** (`InventoryManager`): a list of item assets without
  duplicates, with add, remove, query and a change notification.
- **Views** (`ViewManager`, `ViewData`): turning left or right along
  neighbour links, a zoom stack, and the visibility of the three navigation
  buttons.
- **Interaction** (`InteractableObject`): the dispatch from a click to a
  zoom, a pick-up or a message.
- **Title** (`TitleController`): connecting, creating a room under a random
  six-digit name, the room ID check before a join, and the enabling and
  disabling of the controls.
- **Text**: the decimal rendering of `int.ToString()`, which Lobby and Title
  share.

Every component that changes state in place is a Dafny `class` holding the
component's state fields. UI widgets are reduced to the state the code writes
to them (a label's text, a button's interactable flag, an icon's visibility).
Events and Photon calls become append-only logs or counters. The methods state
the new state in terms of pure functions, and the lemmas prove the
component's properties about those functions. Photon is modelled as inputs
and outputs. The inputs are the roster (actor numbers in
`PhotonNetwork.PlayerList` order), the master flag, the local actor number,
whether the client is connected, and the random number drawn for a room name.
The outputs are the logs of the RPCs sent, the room commands issued and the
requests made to Photon.

A ready click broadcasts to `RpcTarget.AllBuffered`, and PUN runs that RPC on
the sender at once, inside the call. The model of the click therefore sends
the update and also applies it locally: it records the clicker's own entry,
refreshes the icons and runs the start check before the button is refreshed.
On the master with a ready partner, the click itself closes the room and
loads the game (`ClickByMasterWithReadyPartnerStarts`). Deliveries from the
other client are separate `UpdatePlayerReady` calls.

The model follows the code as written. In four places that differs from the
intended design:

- The ready path has no once-only guard. Every delivery of a ready update
  re-runs the start check. A duplicate delivery on the master therefore
  issues "close the room, load Game" again (`DuplicateDeliveryStartsAgain`).
- When a player leaves, the local ready flag is cleared, but the cleared
  value is never broadcast. The local player's own entry in the ready
  dictionary stays true. After a new player joins and readies, the master
  starts although its own ready flag is false and it never clicked again
  (`StaleOwnEntryLetsMasterStart`).
- `SetFlag(f, false)` on a flag that was never written counts as a change.
  It fires an event and sends a message (`FirstFalseWriteIsAChange`).
- The room ID check tests only the length, in UTF-16 code units, of the
  trimmed input. Six letters pass, and so do three characters outside the
  Basic Multilingual Plane (`SixLettersAccepted`,
  `AstralCharactersCountTwice`).

The start check guards on `CurrentRoom.PlayerCount < 2` and then iterates over
`PlayerList`. The model uses the length of the roster for both.

## Model

| member | source | states |
|---|---|---|
| Flags.FlagId | Assets/Scripts/FlagType.cs:5-17 | the wire ordinal of a flag is a declared ordinal, and it is 0 exactly for `None` |
| Flags.FlagOf | Assets/Scripts/FlagManager.cs:81 | the receiver's cast maps a declared ordinal to the flag with that ordinal |
| Flags.FlagIdRoundTrip | Assets/Scripts/FlagManager.cs:50-81 | the ordinal sent by `SetFlag` is cast back to the same flag by the receiver |
| Flags.Lookup | Assets/Scripts/FlagManager.cs:57-76 | a flag absent from the map reads false; a read is true only for a stored true |
| Flags.Differs | Assets/Scripts/FlagManager.cs:43 | the change guard holds iff the write would change the map, so an absent key passes it whatever the value |
| Flags.Store | Assets/Scripts/FlagManager.cs:43-45 | the guarded write yields the unconditionally updated map: the flag reads the new value, every other flag reads as before |
| Flags.SetFlagOutcome | Assets/Scripts/FlagManager.cs:38-52 | `None` changes nothing; otherwise the local map becomes `local[f := v]`, and exactly one local event `(f, v, true)` and one message `(ordinal of f, v)` happen iff f is absent or holds another value |
| Flags.ReceiveOutcomeOf | Assets/Scripts/FlagManager.cs:79-90 | the remote map becomes `remote[f := v]`, and one remote event `(f, v, false)` fires iff f was absent or held another value |
| Flags.FlagManager.constructor | Assets/Scripts/FlagManager.cs:15-21 | both maps start empty, with no events and no messages |
| Flags.FlagManager.SetFlag | Assets/Scripts/FlagManager.cs:38-52 | the local map, events and outbox change as `SetFlagOutcome` says; the remote map is untouched |
| Flags.FlagManager.GetLocalFlag | Assets/Scripts/FlagManager.cs:57-64 | the stored local value, false when the flag was never written |
| Flags.FlagManager.GetRemoteFlag | Assets/Scripts/FlagManager.cs:69-76 | the stored remote value, false when the flag was never received |
| Flags.FlagManager.RpcUpdateRemoteFlag | Assets/Scripts/FlagManager.cs:78-90 | the remote map and events change as `ReceiveOutcomeOf` says; the local map and the outbox are untouched |
| Flags.SetFlagThenRead | Assets/Scripts/FlagManager.cs:40-45 | after `SetFlag(f, v)` with f not `None`, f reads v and every other flag reads as before; with `None` every read is unchanged |
| Flags.SetFlagTwiceIsNoOp | Assets/Scripts/FlagManager.cs:43-51 | a second `SetFlag` with the same arguments changes nothing, fires nothing and sends nothing |
| Flags.FirstFalseWriteIsAChange | Assets/Scripts/FlagManager.cs:43-50 | writing false to an unset flag sends one message and stores false |
| Flags.DuplicateDeliveryIsAbsorbed | Assets/Scripts/FlagManager.cs:84-89 | delivering the same update twice leaves the map of one delivery and fires no second event |
| Flags.SetTouchesOnlyOwnLocal | Assets/Scripts/FlagManager.cs:50 | a write never touches the writer's own mirror, the other client or the writer's own inbound queue |
| Flags.DeliverAppend | Assets/Scripts/FlagManager.cs:84-86 | delivering two batches in order is delivering their concatenation |
| Flags.SetKeepsConsistent | Assets/Scripts/FlagManager.cs:43-50 | a write queues exactly what the other client needs for its mirror, with the queue drained, to equal the new local map |
| Flags.DeliverKeepsConsistent | Assets/Scripts/FlagManager.cs:84-86 | applying the oldest queued message leaves the drained mirror unchanged |
| Flags.StepKeepsConsistent | Assets/Scripts/FlagManager.cs:38-90 | every write or delivery on either client keeps both mirrors, with their queues drained, equal to the other client's local map |
| Flags.RunKeepsConsistent | Assets/Scripts/FlagManager.cs:38-90 | along any run, each mirror with its pending messages applied equals the other client's local map |
| Flags.Convergence | Assets/Scripts/FlagManager.cs:38-90 | from a fresh session, once nothing is in flight, each client's mirror reads exactly what the other client reads locally, for every flag |
| Flags.NeverSetReadsFalse | Assets/Scripts/FlagManager.cs:57-76 | a flag that no client ever sets reads false everywhere, whatever else happens |
| Text.DecimalString | Assets/Scripts/TitleController.cs:69 | the rendering is non-empty, all digits, and has a leading zero only for 0 |
| Text.ParseDecimalString | Assets/Scripts/TitleController.cs:69 | the rendered digits read back as the number |
| Text.SixDigits | Assets/Scripts/TitleController.cs:69 | every number from 100000 to 999999 renders as six digits |
| Lobby.StatusWaiting | Assets/Scripts/MatchingRoomController.cs:158 | the waiting text with the player count out of 2 |
| Lobby.StartDecisionOf | Assets/Scripts/MatchingRoomController.cs:96-126 | fewer than two players stop the check first; with two or more it fails iff some listed player lacks a true entry; a pass is acted on by the master only |
| Lobby.StartCommands | Assets/Scripts/MatchingRoomController.cs:114-125 | commands are issued iff the decision is a pass on the master, and then they are closing the room followed by loading "Game" |
| Lobby.ReadyButtonFor | Assets/Scripts/MatchingRoomController.cs:187-193 | the label is "キャンセル" when ready and "OK" otherwise; the button is interactable iff exactly two players are present |
| Lobby.Clicked | Assets/Scripts/MatchingRoomController.cs:77 | a click flips the local flag and leaves the entries alone |
| Lobby.Delivered | Assets/Scripts/MatchingRoomController.cs:89 | a delivery makes the sender present with the delivered readiness, and leaves every other actor and the local flag alone |
| Lobby.LeftRoom | Assets/Scripts/MatchingRoomController.cs:59-69 | a departure removes the leaver's entry, clears the local flag, and keeps every other entry, the local player's own included |
| Lobby.MatchingRoomController.constructor | Assets/Scripts/MatchingRoomController.cs:25-26 | not ready, with an empty ready dictionary, no RPCs and no commands |
| Lobby.MatchingRoomController.Start | Assets/Scripts/MatchingRoomController.cs:28-41 | sets the waiting or all-joined text by player count and refreshes the icons; the ready state is untouched |
| Lobby.MatchingRoomController.OnPlayerEnteredRoom | Assets/Scripts/MatchingRoomController.cs:43-52 | the status text follows the new player count; nothing else changes |
| Lobby.MatchingRoomController.OnPlayerLeftRoom | Assets/Scripts/MatchingRoomController.cs:54-73 | the leaver's entry is removed, the local flag is cleared, the button is refreshed only if the flag was set, and nothing is broadcast |
| Lobby.MatchingRoomController.OnReadyButtonClicked | Assets/Scripts/MatchingRoomController.cs:75-84 | the local flag flips, exactly one update (own actor, new flag) is broadcast and applied to the sender at once, the icons follow the entries, the start check runs, and the button follows the new flag |
| Lobby.MatchingRoomController.UpdatePlayerReady | Assets/Scripts/MatchingRoomController.cs:86-94 | the sender's entry is set, the icons are refreshed and the start check runs again on every delivery |
| Lobby.MatchingRoomController.CheckAllPlayersReady | Assets/Scripts/MatchingRoomController.cs:96-126 | the loop with early exit computes the start decision: the status text changes iff the check passes, and commands are issued only on the master |
| Lobby.MatchingRoomController.UpdatePlayerList | Assets/Scripts/MatchingRoomController.cs:128-164 | "waiting (n/2)" with fewer than two players, the all-joined text otherwise |
| Lobby.MatchingRoomController.UpdateReadyStatus | Assets/Scripts/MatchingRoomController.cs:166-183 | the icon of list slot i is shown iff that slot's actor has an entry that is true; absent slots keep their icon |
| Lobby.MatchingRoomController.UpdateReadyButton | Assets/Scripts/MatchingRoomController.cs:185-194 | the button becomes `ReadyButtonFor(isReady, player count)` |
| Lobby.MatchingRoomController.OnLeaveRoomClicked | Assets/Scripts/MatchingRoomController.cs:196-200 | the leaving text is shown and one leave request is issued |
| Lobby.MatchingRoomController.OnLeftRoom | Assets/Scripts/MatchingRoomController.cs:202-207 | the title scene is loaded |
| Lobby.MatchingRoomController.Update | Assets/Scripts/MatchingRoomController.cs:209-216 | only the button's interactable state changes: it becomes true iff exactly two players are present |
| Lobby.TooFewPlayersNeverStart | Assets/Scripts/MatchingRoomController.cs:99-102 | with fewer than two players the check never passes and issues nothing |
| Lobby.StartIffEveryListedPlayerReady | Assets/Scripts/MatchingRoomController.cs:104-112 | the check passes iff there are at least two players and every listed actor has an entry that is true |
| Lobby.OnlyMasterStarts | Assets/Scripts/MatchingRoomController.cs:114-125 | commands are issued iff the client is master and the check passes, and they are closing the room then loading "Game" |
| Lobby.ReadinessGating | Assets/Scripts/MatchingRoomController.cs:104-114 | with two ready players the check passes; making either one not ready, or removing an entry, blocks it |
| Lobby.ClickTwiceRestores | Assets/Scripts/MatchingRoomController.cs:77 | a click flips the local flag and two clicks restore it |
| Lobby.ClickByMasterWithReadyPartnerStarts | Assets/Scripts/MatchingRoomController.cs:77-125 | on the master, a click that makes it ready while its one partner is ready starts the game within the same click |
| Lobby.DuplicateDeliveryStartsAgain | Assets/Scripts/MatchingRoomController.cs:86-94 | a repeated delivery of an update that let the master start issues the start commands again |
| Lobby.LeaveKeepsOthersDecision | Assets/Scripts/MatchingRoomController.cs:59-62 | on a roster without the leaver, removing the leaver's entry changes no start decision |
| Lobby.StaleOwnEntryLetsMasterStart | Assets/Scripts/MatchingRoomController.cs:54-73 | because the cleared flag is never broadcast, the master can start after a partner change without clicking ready again |
| Inventory.Added | Assets/Scripts/InventoryManager.cs:33-35 | the item is present afterwards, the old list is kept as a prefix, and the list grows by one, with the item at the end, exactly when the item was absent |
| Inventory.IndexOf | Assets/Scripts/InventoryManager.cs:45 | the first position that holds the item |
| Inventory.RemoveFirst | Assets/Scripts/InventoryManager.cs:45 | removing an absent item changes nothing; removing a present one shortens the list by one |
| Inventory.InventoryManager.constructor | Assets/Scripts/InventoryManager.cs:13 | the inventory starts empty with no notifications |
| Inventory.InventoryManager.AddItem | Assets/Scripts/InventoryManager.cs:30-39 | the list becomes `Added(items, x)`, stays without duplicates, and one notification fires iff the item was absent |
| Inventory.InventoryManager.RemoveItem | Assets/Scripts/InventoryManager.cs:41-49 | the list loses the item's first occurrence, stays without duplicates, and one notification fires iff the item was present |
| Inventory.InventoryManager.HasItem | Assets/Scripts/InventoryManager.cs:51-54 | true iff some position of the list holds this very item |
| Inventory.InventoryManager.GetItems | Assets/Scripts/InventoryManager.cs:55-58 | the list in insertion order; every entry is reported present and none appears twice |
| Inventory.AddedKeepsNoDuplicates | Assets/Scripts/InventoryManager.cs:33-35 | adding keeps the list without duplicates and leaves the item present |
| Inventory.RemoveKeepsOrder | Assets/Scripts/InventoryManager.cs:45 | removing takes out exactly the first occurrence and keeps the order of the rest |
| Inventory.RemovedKeepsNoDuplicates | Assets/Scripts/InventoryManager.cs:43-45 | in a list without duplicates, the removed item is absent afterwards and the list stays without duplicates |
| Inventory.RemoveUndoesAdd | Assets/Scripts/InventoryManager.cs:30-49 | removing an item just added restores the list |
| Views.ZoomedIn | Assets/Scripts/ViewManager.cs:85-93 | the target becomes current, and the old current view is pushed iff there was one |
| Views.Returned | Assets/Scripts/ViewManager.cs:95-102 | an empty stack changes nothing; otherwise exactly one view is popped and becomes current |
| Views.TurnedRight | Assets/Scripts/ViewManager.cs:69-75 | the stack is kept, and the view moves, to the right neighbour, iff there is a current view with a right neighbour |
| Views.TurnedLeft | Assets/Scripts/ViewManager.cs:77-83 | the stack is kept, and the view moves, to the left neighbour, iff there is a current view with a left neighbour |
| Views.ButtonsFor | Assets/Scripts/ViewManager.cs:104-116 | back is shown iff the view is a zoom view; left or right is shown iff the view is not zoomed and has that neighbour |
| Views.ViewData.constructor | Assets/Scripts/ViewData.cs:9-28 | a view with the given name, neighbour links and zoom flag |
| Views.ViewManager.constructor | Assets/Scripts/ViewManager.cs:14-24 | no current view and an empty stack |
| Views.ViewManager.Start | Assets/Scripts/ViewManager.cs:38-48 | the initial view is shown if it is set; otherwise nothing changes |
| Views.ViewManager.ShowView | Assets/Scripts/ViewManager.cs:50-67 | the view becomes current, the stack is kept and the buttons follow the new view |
| Views.ViewManager.UpdateUI | Assets/Scripts/ViewManager.cs:104-116 | the buttons become `ButtonsFor(current)`; the navigation state is kept |
| Views.ViewManager.TurnRight | Assets/Scripts/ViewManager.cs:69-75 | the state becomes `TurnedRight(state)`; the buttons are refreshed only when the move happens |
| Views.ViewManager.TurnLeft | Assets/Scripts/ViewManager.cs:77-83 | the state becomes `TurnedLeft(state)`; the buttons are refreshed only when the move happens |
| Views.ViewManager.ZoomIn | Assets/Scripts/ViewManager.cs:85-93 | the state becomes `ZoomedIn(state, v)` and the buttons follow v |
| Views.ViewManager.Return | Assets/Scripts/ViewManager.cs:95-102 | the state becomes `Returned(state)`; the buttons are refreshed only when the stack was non-empty |
| Views.ReturnUndoesZoomIn | Assets/Scripts/ViewManager.cs:85-102 | from a shown view, zooming in and returning restores the view and the stack |
| Views.TurnLeftUndoesTurnRight | Assets/Scripts/ViewManager.cs:69-83 | turning right then left comes back when the two views link to each other |
| Views.ReturnsUndoZooms | Assets/Scripts/ViewManager.cs:85-102 | from a shown view, any number of zooms followed by as many returns restores the view and the stack |
| Views.BackExcludesTurns | Assets/Scripts/ViewManager.cs:111-115 | the back button and the turn buttons are never shown together |
| Interaction.EffectOf | Assets/Scripts/InteractableObject.cs:49-70 | zoom reaches the view manager iff the target is set, and with that target; pick-up reaches the inventory iff the item is set; message and none reach nothing |
| Interaction.InteractableObject.constructor | Assets/Scripts/InteractableObject.cs:18-28 | an active object with the given interaction settings |
| Interaction.InteractableObject.Interact | Assets/Scripts/InteractableObject.cs:45-71 | a zoom with a target zooms the view manager to it; a pick-up with an item adds it and deactivates the object; everything else changes nothing |
| Interaction.InteractableObject.OnPointerClick | Assets/Scripts/InteractableObject.cs:30-33 | a pointer click always interacts, with the full effect of `Interact` |
| Interaction.InteractableObject.OnMouseDown | Assets/Scripts/InteractableObject.cs:36-43 | a mouse press over a UI element changes nothing; otherwise it has the full effect of `Interact` |
| Title.IsWhiteSpace | Assets/Scripts/TitleController.cs:87 | the characters that `char.IsWhiteSpace` accepts |
| Title.TrimStart | Assets/Scripts/TitleController.cs:87 | the result is no longer than the input and does not start with white space |
| Title.TrimEnd | Assets/Scripts/TitleController.cs:87 | the result is no longer than the input and does not end with white space |
| Title.Trim | Assets/Scripts/TitleController.cs:87 | the result is no longer than the input and neither of its ends is white space |
| Title.TrimStartRemovesBlankPrefix | Assets/Scripts/TitleController.cs:87 | trimming the start removes a white-space prefix up to the first other character |
| Title.TrimEndRemovesBlankSuffix | Assets/Scripts/TitleController.cs:87 | trimming the end removes a white-space suffix back to the last other character |
| Title.TrimIsSlice | Assets/Scripts/TitleController.cs:87 | the trimmed text is a slice of the input with only white space cut off on each side |
| Title.TrimKeepsClean | Assets/Scripts/TitleController.cs:87 | text whose ends are not white space is left as it is |
| Title.TrimIdempotent | Assets/Scripts/TitleController.cs:87 | trimming twice is trimming once |
| Title.BlankTrimsToEmpty | Assets/Scripts/TitleController.cs:87-89 | text made only of white space trims to nothing |
| Title.TrimOfPadded | Assets/Scripts/TitleController.cs:87 | white space before and after a clean text is exactly what trimming removes |
| Title.Utf16Length | Assets/Scripts/TitleController.cs:96 | the UTF-16 length is at least the number of characters |
| Title.Utf16LengthOfBmp | Assets/Scripts/TitleController.cs:96 | characters inside the Basic Multilingual Plane count one code unit each |
| Title.Utf16LengthOfAstral | Assets/Scripts/TitleController.cs:96 | characters outside the Basic Multilingual Plane count two code units each |
| Title.CheckRoomId | Assets/Scripts/TitleController.cs:87-100 | input made only of white space is no ID; an accepted ID has clean ends and is six UTF-16 code units long |
| Title.JoinAcceptedIffSixUnits | Assets/Scripts/TitleController.cs:87-100 | a join is accepted iff the trimmed input is six UTF-16 code units long, it uses the trimmed input, and empty trimmed input is its own rejection |
| Title.JoinCheckSeesTrimmedText | Assets/Scripts/TitleController.cs:87 | checking the trimmed input gives the same outcome as checking the raw input |
| Title.CleanSixUnitsAccepted | Assets/Scripts/TitleController.cs:96-105 | any clean text of six code units is accepted unchanged, digits or not |
| Title.SixLettersAccepted | Assets/Scripts/TitleController.cs:96 | "abcdef" is accepted |
| Title.SurroundingSpacesTrimmed | Assets/Scripts/TitleController.cs:87-96 | "  123456" followed by a tab is accepted as "123456" |
| Title.AstralCharactersCountTwice | Assets/Scripts/TitleController.cs:96 | three characters outside the Basic Multilingual Plane are accepted |
| Title.FiveDigitsRejected | Assets/Scripts/TitleController.cs:96-99 | "12345" fails the length check |
| Title.BlankRejected | Assets/Scripts/TitleController.cs:89-92 | a space, a tab and an ideographic space count as no ID |
| Title.RoomNameFor | Assets/Scripts/TitleController.cs:69 | the drawn number renders as six digits that read back as the number |
| Title.GeneratedNameIsAccepted | Assets/Scripts/TitleController.cs:69-105 | a name drawn from 100000 to 999998 is six digits, reads back as the drawn number and passes the join check unchanged |
| Title.TitleController.constructor | Assets/Scripts/TitleController.cs:14-21 | the controls, panel and status text as laid out, an empty ID field and no requests |
| Title.TitleController.SetInteractable | Assets/Scripts/TitleController.cs:132-145 | all four controls get the given state and nothing else changes |
| Title.TitleController.EditRoomId | Assets/Scripts/TitleController.cs:15 | typing sets the ID field and nothing else |
| Title.TitleController.Start | Assets/Scripts/TitleController.cs:23-45 | when not connected: controls disabled, connecting text, one connect request; when connected: the connected state |
| Title.TitleController.OnConnectedToMaster | Assets/Scripts/TitleController.cs:47-57 | controls enabled, the choose text shown and the connecting panel hidden |
| Title.TitleController.OnDisconnected | Assets/Scripts/TitleController.cs:59-64 | controls disabled and the cause shown after "接続エラー: " |
| Title.TitleController.OnCreateRoomClicked | Assets/Scripts/TitleController.cs:66-83 | controls disabled and one create request for the drawn six-digit name, with at most 2 players, not visible and open |
| Title.TitleController.OnJoinRoomClicked | Assets/Scripts/TitleController.cs:85-106 | a rejected ID changes only the status text; an accepted one disables the controls and requests a join of the trimmed ID |
| Title.TitleController.OnJoinedRoom | Assets/Scripts/TitleController.cs:108-115 | the joined text is shown and the matching room scene is requested |
| Title.TitleController.OnCreateRoomFailed | Assets/Scripts/TitleController.cs:117-123 | controls enabled again with the retry text |
| Title.TitleController.OnJoinRoomFailed | Assets/Scripts/TitleController.cs:125-130 | controls enabled again with the failure message shown |

## Left out

- Photon transport: RPC delivery, the buffered replay of `RpcTarget.AllBuffered`, room membership, master election, scene loading and room creation or joining. These are foreign network calls. They appear as inputs and as outbox or request sequences.
- Flags.Convergence: assumes each client's messages reach the other client in the order they were sent, once each.
- Flags.FlagManager.RpcUpdateRemoteFlag: requires a declared ordinal. Only `SetFlag` sends this RPC, and it sends only declared ordinals. An out-of-range integer cast to the enum is not modelled.
- Lobby.MatchingRoomController.UpdatePlayerReady: the start check runs on the roster passed in. Photon's `PlayerCount` is taken to equal the length of `PlayerList`.
- Inventory.InventoryManager.GetItems: it returns the list as a value. Callers that mutate the live `List` returned by the C# method are not modelled.
- Inventory.InventoryManager.AddItem: a null item is not modelled; every item is an asset reference.
- Player nicknames, the room name label, the name texts of the two list slots and their activation, and `Debug.Log` output carry no state the rest of the code reads.
- UI references that may be null (buttons, labels, icons, the connecting panel) are taken to be present. The model writes their state unconditionally.
- Prefab instantiation and destruction in `ShowView` and the singleton `Awake` handling are Unity object management.
- Button listener registrations (TitleController.cs:25-31, MatchingRoomController.cs:30-31, ViewManager.cs:40-42) are wiring: the model calls the handlers directly.
- The subscribers of `OnFlagChanged` (FlagManager.cs:46, :87) and `OnInventoryChanged` (InventoryManager.cs:36, :46) are not run. The model logs or counts each invocation; a subscriber that calls back into the manager while it runs is not modelled.
- Subclasses overriding the virtual `Interact` are not modelled; the message text is only logged.
- Randomness: the number drawn for a room name is a parameter restricted to the range of `Random.Range(100000, 999999)`.
- AudioManager, SettingsController, InGameUIManager, PunPlayer, PunConnector and GameManager are not part of this model. They hold float volumes, UI forwarding, rendering, input and spawn positions.
