/** The matching room: each player toggles a ready flag that is broadcast to
    every player (the sender included); every delivery records the sender's
    readiness and re-runs the start check, which lets the master client close
    the room and load the game once two players are present and every listed
    player is ready. Photon is modelled by inputs (the roster as the actor
    numbers of `PhotonNetwork.PlayerList`, the master flag, the local actor)
    and outputs (the RPCs sent and the room commands issued). */
module Lobby {
  import Text

  /** `UpdatePlayerReady(actorNumber, ready)`, sent to `RpcTarget.AllBuffered`. */
  datatype RpcCall = UpdatePlayerReady(actorNumber: int, ready: bool)

  /** The Photon room operations the controller issues. */
  datatype RoomCommand = CloseRoom | LoadLevel(scene: string) | LeaveRoom

  const StatusAllJoined := "全員揃いました！準備ができたらOKボタンを押してください"
  const StatusPlayerLeft := "プレイヤーが退室しました。新しいプレイヤーを待っています..."
  const StatusStarting := "ゲームを開始します..."
  const StatusLeaving := "部屋から退出中..."
  const LabelCancel := "キャンセル"
  const LabelOk := "OK"

  function StatusWaiting(count: nat): string {
    "プレイヤーを待っています... (" + Text.DecimalString(count) + "/2)"
  }

  type ReadyMap = map<int, bool>

  /** A player counts as ready only with an entry that is true. */
  predicate IsReady(status: ReadyMap, actor: int) {
    actor in status && status[actor]
  }

  predicate AllListedReady(status: ReadyMap, players: seq<int>) {
    forall i :: 0 <= i < |players| ==> IsReady(status, players[i])
  }

  /** The outcome of one run of the start check. */
  datatype StartDecision =
    | TooFewPlayers      // fewer than two players: nothing happens
    | NotAllReady        // some listed player is not ready: nothing happens
    | StartingAsGuest    // all ready on a non-master: only the status text changes
    | StartingAsMaster   // all ready on the master: close the room and load "Game"

  /** Fewer than two players stop the check first; otherwise it passes
      exactly when every listed player is ready, and who acts on a pass
      depends only on the master flag. */
  function StartDecisionOf(status: ReadyMap, players: seq<int>, isMaster: bool): (d: StartDecision)
    ensures d == TooFewPlayers <==> |players| < 2
    ensures d == NotAllReady <==> |players| >= 2 && exists i :: 0 <= i < |players| && !IsReady(status, players[i])
    ensures d == StartingAsMaster ==> isMaster
    ensures d == StartingAsGuest ==> !isMaster
  {
    if |players| < 2 then TooFewPlayers
    else if !AllListedReady(status, players) then NotAllReady
    else if isMaster then StartingAsMaster
    else StartingAsGuest
  }

  predicate Starting(d: StartDecision) {
    d == StartingAsGuest || d == StartingAsMaster
  }

  /** Only a pass on the master issues commands: the room is closed before
      the game scene is loaded. */
  function StartCommands(d: StartDecision): (cmds: seq<RoomCommand>)
    ensures cmds != [] <==> d == StartingAsMaster
    ensures cmds != [] ==> cmds[0] == CloseRoom && cmds[|cmds| - 1] == LoadLevel("Game") && |cmds| == 2
  {
    if d == StartingAsMaster then [CloseRoom, LoadLevel("Game")] else []
  }

  /** The label and the interactable state of the ready button. */
  datatype ReadyButton = ReadyButton(caption: string, interactable: bool)

  function ReadyButtonFor(isReady: bool, playerCount: nat): (b: ReadyButton)
    ensures b.caption == (if isReady then LabelCancel else LabelOk)
    ensures b.interactable <==> playerCount == 2
  {
    ReadyButton(if isReady then LabelCancel else LabelOk, playerCount == 2)
  }

  /** The part of the controller's state the ready protocol works on. */
  datatype ReadyState = ReadyState(isReady: bool, entries: ReadyMap)

  /** A click flips the local flag; the entry changes only on delivery. */
  function Clicked(s: ReadyState): (r: ReadyState)
    ensures r.isReady != s.isReady && r.entries == s.entries
  {
    s.(isReady := !s.isReady)
  }

  /** A delivery sets the sender's readiness and leaves every other actor
      and the local flag alone. */
  function Delivered(s: ReadyState, actor: int, ready: bool): (r: ReadyState)
    ensures IsReady(r.entries, actor) == ready && actor in r.entries
    ensures forall b :: b != actor ==> IsReady(r.entries, b) == IsReady(s.entries, b)
    ensures r.isReady == s.isReady
  {
    s.(entries := s.entries[actor := ready])
  }

  /** A departure removes the leaver's entry (a later player with the same
      number starts unknown) and clears the local flag; every other entry,
      the local player's own included, is kept, and nothing is broadcast. */
  function LeftRoom(s: ReadyState, leaver: int): (r: ReadyState)
    ensures leaver !in r.entries && !r.isReady
    ensures forall b :: b != leaver ==> IsReady(r.entries, b) == IsReady(s.entries, b)
  {
    ReadyState(false, s.entries - {leaver})
  }

  class MatchingRoomController {
    var isReady: bool
    var playerReadyStatus: ReadyMap
    var statusText: string
    var readyButton: ReadyButton
    /** Whether the ready icons of list slots 0 and 1 are shown. */
    var readyIcon1: bool
    var readyIcon2: bool
    var sentRpcs: seq<RpcCall>
    var commands: seq<RoomCommand>

    function State(): ReadyState
      reads this
    {
      ReadyState(isReady, playerReadyStatus)
    }

    /** The labels, icons and button start as laid out in the scene. */
    constructor (statusText: string, readyButton: ReadyButton, readyIcon1: bool, readyIcon2: bool)
      ensures State() == ReadyState(false, map[])
      ensures this.statusText == statusText && this.readyButton == readyButton
      ensures this.readyIcon1 == readyIcon1 && this.readyIcon2 == readyIcon2
      ensures sentRpcs == [] && commands == []
    {
      isReady, playerReadyStatus := false, map[];
      this.statusText, this.readyButton := statusText, readyButton;
      this.readyIcon1, this.readyIcon2 := readyIcon1, readyIcon2;
      sentRpcs, commands := [], [];
    }

    method Start(players: seq<int>)
      modifies this
      ensures State() == old(State()) && readyButton == old(readyButton)
      ensures statusText == (if |players| < 2 then StatusWaiting(|players|) else StatusAllJoined)
      ensures |players| > 0 ==> readyIcon1 == IsReady(playerReadyStatus, players[0])
      ensures |players| > 1 ==> readyIcon2 == IsReady(playerReadyStatus, players[1])
      ensures |players| == 0 ==> readyIcon1 == old(readyIcon1)
      ensures |players| <= 1 ==> readyIcon2 == old(readyIcon2)
      ensures sentRpcs == old(sentRpcs) && commands == old(commands)
    {
      UpdatePlayerList(players);
      UpdateReadyStatus(players);
    }

    method OnPlayerEnteredRoom(players: seq<int>)
      modifies this
      ensures statusText == (if |players| < 2 then StatusWaiting(|players|) else StatusAllJoined)
      ensures State() == old(State()) && readyButton == old(readyButton)
      ensures readyIcon1 == old(readyIcon1) && readyIcon2 == old(readyIcon2)
      ensures sentRpcs == old(sentRpcs) && commands == old(commands)
    {
      UpdatePlayerList(players);
      if |players| == 2 {
        statusText := StatusAllJoined;
      }
    }

    /** `players` is the roster after the departure. */
    method OnPlayerLeftRoom(leaver: int, players: seq<int>)
      modifies this
      ensures State() == LeftRoom(old(State()), leaver)
      ensures statusText == StatusPlayerLeft
      ensures readyButton == if old(isReady) then ReadyButtonFor(false, |players|) else old(readyButton)
      ensures readyIcon1 == old(readyIcon1) && readyIcon2 == old(readyIcon2)
      ensures sentRpcs == old(sentRpcs) && commands == old(commands)
    {
      if leaver in playerReadyStatus {
        playerReadyStatus := playerReadyStatus - {leaver};
      }
      UpdatePlayerList(players);
      statusText := StatusPlayerLeft;
      if isReady {
        isReady := false;
        UpdateReadyButton(|players|);
      }
    }

    /** The broadcast goes to every player, the sender included, and runs
        `UpdatePlayerReady` on the sender within the call: a click records
        the clicker's own entry, refreshes the icons and runs the start check
        before the button is refreshed. */
    method OnReadyButtonClicked(localActor: int, players: seq<int>, isMaster: bool)
      modifies this
      ensures State() == Delivered(Clicked(old(State())), localActor, !old(isReady))
      ensures sentRpcs == old(sentRpcs) + [RpcCall.UpdatePlayerReady(localActor, isReady)]
      ensures var d := StartDecisionOf(playerReadyStatus, players, isMaster);
        && commands == old(commands) + StartCommands(d)
        && statusText == (if Starting(d) then StatusStarting else old(statusText))
      ensures |players| > 0 ==> readyIcon1 == IsReady(playerReadyStatus, players[0])
      ensures |players| > 1 ==> readyIcon2 == IsReady(playerReadyStatus, players[1])
      ensures |players| == 0 ==> readyIcon1 == old(readyIcon1)
      ensures |players| <= 1 ==> readyIcon2 == old(readyIcon2)
      ensures readyButton == ReadyButtonFor(isReady, |players|)
    {
      isReady := !isReady;
      sentRpcs := sentRpcs + [RpcCall.UpdatePlayerReady(localActor, isReady)];
      UpdatePlayerReady(localActor, isReady, players, isMaster);
      UpdateReadyButton(|players|);
    }

    /** A delivery of a ready update; on every delivery, duplicates included,
        the icons are refreshed and the start check runs again. */
    method UpdatePlayerReady(actorNumber: int, ready: bool, players: seq<int>, isMaster: bool)
      modifies this
      ensures State() == Delivered(old(State()), actorNumber, ready)
      ensures var d := StartDecisionOf(playerReadyStatus, players, isMaster);
        && commands == old(commands) + StartCommands(d)
        && statusText == (if Starting(d) then StatusStarting else old(statusText))
      ensures |players| > 0 ==> readyIcon1 == IsReady(playerReadyStatus, players[0])
      ensures |players| > 1 ==> readyIcon2 == IsReady(playerReadyStatus, players[1])
      ensures |players| == 0 ==> readyIcon1 == old(readyIcon1)
      ensures |players| <= 1 ==> readyIcon2 == old(readyIcon2)
      ensures sentRpcs == old(sentRpcs) && readyButton == old(readyButton)
    {
      playerReadyStatus := playerReadyStatus[actorNumber := ready];
      UpdateReadyStatus(players);
      CheckAllPlayersReady(players, isMaster);
    }

    method CheckAllPlayersReady(players: seq<int>, isMaster: bool)
      modifies this
      ensures var d := StartDecisionOf(playerReadyStatus, players, isMaster);
        && commands == old(commands) + StartCommands(d)
        && statusText == (if Starting(d) then StatusStarting else old(statusText))
      ensures State() == old(State()) && sentRpcs == old(sentRpcs) && readyButton == old(readyButton)
      ensures readyIcon1 == old(readyIcon1) && readyIcon2 == old(readyIcon2)
    {
      if |players| < 2 {
        return;
      }
      var allReady := true;
      var i := 0;
      while i < |players|
        invariant 0 <= i <= |players|
        invariant allReady
        invariant forall j :: 0 <= j < i ==> IsReady(playerReadyStatus, players[j])
      {
        if players[i] !in playerReadyStatus || !playerReadyStatus[players[i]] {
          allReady := false;
          break;
        }
        i := i + 1;
      }
      if allReady {
        statusText := StatusStarting;
        if isMaster {
          commands := commands + [CloseRoom, LoadLevel("Game")];
        }
      }
    }

    method UpdatePlayerList(players: seq<int>)
      modifies this
      ensures statusText == (if |players| < 2 then StatusWaiting(|players|) else StatusAllJoined)
      ensures State() == old(State()) && readyButton == old(readyButton)
      ensures readyIcon1 == old(readyIcon1) && readyIcon2 == old(readyIcon2)
      ensures sentRpcs == old(sentRpcs) && commands == old(commands)
    {
      if |players| < 2 {
        statusText := StatusWaiting(|players|);
      } else {
        statusText := StatusAllJoined;
      }
    }

    /** The icon of list slot i shows whether that slot's player is ready. */
    method UpdateReadyStatus(players: seq<int>)
      modifies this
      ensures |players| > 0 ==> readyIcon1 == IsReady(playerReadyStatus, players[0])
      ensures |players| > 1 ==> readyIcon2 == IsReady(playerReadyStatus, players[1])
      ensures |players| == 0 ==> readyIcon1 == old(readyIcon1)
      ensures |players| <= 1 ==> readyIcon2 == old(readyIcon2)
      ensures State() == old(State()) && statusText == old(statusText) && readyButton == old(readyButton)
      ensures sentRpcs == old(sentRpcs) && commands == old(commands)
    {
      if |players| > 0 {
        readyIcon1 := players[0] in playerReadyStatus && playerReadyStatus[players[0]];
      }
      if |players| > 1 {
        readyIcon2 := players[1] in playerReadyStatus && playerReadyStatus[players[1]];
      }
    }

    method UpdateReadyButton(playerCount: nat)
      modifies this
      ensures readyButton == ReadyButtonFor(isReady, playerCount)
      ensures State() == old(State()) && statusText == old(statusText)
      ensures readyIcon1 == old(readyIcon1) && readyIcon2 == old(readyIcon2)
      ensures sentRpcs == old(sentRpcs) && commands == old(commands)
    {
      readyButton := ReadyButton(if isReady then LabelCancel else LabelOk, playerCount == 2);
    }

    method OnLeaveRoomClicked()
      modifies this
      ensures statusText == StatusLeaving && commands == old(commands) + [LeaveRoom]
      ensures State() == old(State()) && readyButton == old(readyButton) && sentRpcs == old(sentRpcs)
      ensures readyIcon1 == old(readyIcon1) && readyIcon2 == old(readyIcon2)
    {
      statusText := StatusLeaving;
      commands := commands + [LeaveRoom];
    }

    method OnLeftRoom()
      modifies this
      ensures commands == old(commands) + [LoadLevel("TitleScene")]
      ensures State() == old(State()) && readyButton == old(readyButton) && sentRpcs == old(sentRpcs)
      ensures statusText == old(statusText) && readyIcon1 == old(readyIcon1) && readyIcon2 == old(readyIcon2)
    {
      commands := commands + [LoadLevel("TitleScene")];
    }

    /** The per-frame refresh of the ready button's interactable state. */
    method Update(playerCount: nat)
      modifies this
      ensures readyButton == old(readyButton).(interactable := playerCount == 2)
      ensures State() == old(State()) && statusText == old(statusText) && sentRpcs == old(sentRpcs)
      ensures readyIcon1 == old(readyIcon1) && readyIcon2 == old(readyIcon2) && commands == old(commands)
    {
      readyButton := readyButton.(interactable := playerCount == 2);
    }
  }

  // ----- The start check -----

  /** With fewer than two players the check does nothing, whatever the entries. */
  lemma TooFewPlayersNeverStart(status: ReadyMap, players: seq<int>, isMaster: bool)
    requires |players| < 2
    ensures !Starting(StartDecisionOf(status, players, isMaster))
    ensures StartCommands(StartDecisionOf(status, players, isMaster)) == []
  {
  }

  /** The check passes exactly when two or more players are listed and every
      one of them has an entry that is true; a missing entry blocks it. */
  lemma StartIffEveryListedPlayerReady(status: ReadyMap, players: seq<int>, isMaster: bool)
    ensures Starting(StartDecisionOf(status, players, isMaster))
        <==> |players| >= 2 && forall a :: a in players ==> a in status && status[a]
  {
    if |players| >= 2 && AllListedReady(status, players) {
      forall a | a in players ensures a in status && status[a] {
        var i :| 0 <= i < |players| && players[i] == a;
      }
    }
  }

  /** Only the master issues commands, and only when the check passes; a
      non-master that passes only shows the starting text. */
  lemma OnlyMasterStarts(status: ReadyMap, players: seq<int>, isMaster: bool)
    ensures var d := StartDecisionOf(status, players, isMaster);
      && (StartCommands(d) != [] <==> isMaster && Starting(d))
      && (StartCommands(d) != [] ==> StartCommands(d) == [CloseRoom, LoadLevel("Game")])
  {
  }

  /** With two listed players: both entries true passes; turning either to
      false (or removing it) blocks. */
  lemma ReadinessGating(status: ReadyMap, a: int, b: int, isMaster: bool)
    requires IsReady(status, a) && IsReady(status, b)
    ensures Starting(StartDecisionOf(status, [a, b], isMaster))
    ensures StartDecisionOf(status[a := false], [a, b], isMaster) == NotAllReady
    ensures StartDecisionOf(status[b := false], [a, b], isMaster) == NotAllReady
    ensures StartDecisionOf(status - {b}, [a, b], isMaster) == NotAllReady
  {
    assert !IsReady(status[a := false], [a, b][0]);
    assert !IsReady(status[b := false], [a, b][1]);
    assert !IsReady(status - {b}, [a, b][1]);
  }

  // ----- The ready protocol -----

  /** A click flips the local flag, so two clicks restore it. */
  lemma ClickTwiceRestores(s: ReadyState)
    ensures Clicked(Clicked(s)) == s
    ensures Clicked(s).isReady == !s.isReady
  {
  }

  /** On the master, a click that makes it ready while the one other player
      is already ready starts the game within the same click. */
  lemma ClickByMasterWithReadyPartnerStarts(s: ReadyState, me: int, partner: int)
    requires !s.isReady && me != partner && IsReady(s.entries, partner)
    ensures StartDecisionOf(Delivered(Clicked(s), me, true).entries, [me, partner], true) == StartingAsMaster
  {
    var t := Delivered(Clicked(s), me, true).entries;
    assert IsReady(t, [me, partner][0]) && IsReady(t, [me, partner][1]);
  }

  /** There is no once-only guard: a duplicate delivery of the update that
      let the master start repeats the start, commands included. */
  lemma DuplicateDeliveryStartsAgain(s: ReadyState, actor: int, ready: bool, players: seq<int>)
    requires Starting(StartDecisionOf(Delivered(s, actor, ready).entries, players, true))
    ensures var again := Delivered(Delivered(s, actor, ready), actor, ready);
      StartCommands(StartDecisionOf(again.entries, players, true)) == [CloseRoom, LoadLevel("Game")]
  {
  }

  /** A departure changes no start decision on a roster without the leaver:
      the removal only ever concerns the leaver's own entry. */
  lemma {:induction false} LeaveKeepsOthersDecision(s: ReadyState, leaver: int, players: seq<int>, isMaster: bool)
    requires leaver !in players
    ensures StartDecisionOf(LeftRoom(s, leaver).entries, players, isMaster) == StartDecisionOf(s.entries, players, isMaster)
  {
    var t := LeftRoom(s, leaver).entries;
    forall i | 0 <= i < |players| ensures IsReady(t, players[i]) == IsReady(s.entries, players[i]) {
      assert players[i] != leaver;
    }
    assert AllListedReady(t, players) == AllListedReady(s.entries, players);
  }

  /** Because the local reset is not broadcast, the local player's stale true
      entry survives a departure: actors 1 and 2 are ready, 2 leaves, 3 joins
      and readies, and the master (actor 1) starts although its own ready flag
      was cleared and it never clicked again. */
  lemma StaleOwnEntryLetsMasterStart()
    ensures var s0 := ReadyState(true, map[1 := true, 2 := true]);
      var s1 := LeftRoom(s0, 2);
      var s2 := Delivered(s1, 3, true);
      && !s2.isReady
      && StartDecisionOf(s2.entries, [1, 3], true) == StartingAsMaster
  {
    var s2 := Delivered(LeftRoom(ReadyState(true, map[1 := true, 2 := true]), 2), 3, true);
    assert IsReady(s2.entries, 1) && IsReady(s2.entries, 3);
    assert AllListedReady(s2.entries, [1, 3]);
  }
}
