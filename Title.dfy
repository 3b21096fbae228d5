/** The title screen: connecting to the Photon master server, creating a
    room under a random six-digit name, and joining a room by the ID typed
    in by the player, with the screen's controls disabled while a connection
    or room request is pending. Photon calls are recorded as requests; the
    random number is a parameter. */
module Title {
  import Text

  // ----- Trimming and the room ID check -----

  /** .NET `char.IsWhiteSpace`: the space, line and paragraph separators and
      the control characters U+0009 to U+000D and U+0085. */
  predicate IsWhiteSpace(c: char) {
    || ('\U{9}' <= c <= '\U{D}') || c == '\U{20}' || c == '\U{85}' || c == '\U{A0}'
    || c == '\U{1680}' || ('\U{2000}' <= c <= '\U{200A}') || c == '\U{2028}' || c == '\U{2029}'
    || c == '\U{202F}' || c == '\U{205F}' || c == '\U{3000}'
  }

  /** `string.TrimStart()`: leading white space removed. */
  function TrimStart(s: string): (r: string)
    ensures |r| <= |s|
    ensures r != [] ==> !IsWhiteSpace(r[0])
    decreases |s|
  {
    if s != [] && IsWhiteSpace(s[0]) then TrimStart(s[1..]) else s
  }

  /** `string.TrimEnd()`: trailing white space removed. */
  function TrimEnd(s: string): (r: string)
    ensures |r| <= |s|
    ensures r != [] ==> !IsWhiteSpace(r[|r| - 1])
    decreases |s|
  {
    if s != [] && IsWhiteSpace(s[|s| - 1]) then TrimEnd(s[..|s| - 1]) else s
  }

  /** TrimStart removes a prefix made of white space, up to the first
      character that is not. */
  lemma {:induction false} TrimStartRemovesBlankPrefix(s: string)
    ensures |TrimStart(s)| <= |s| && TrimStart(s) == s[|s| - |TrimStart(s)|..]
    ensures TrimStart(s) != [] ==> !IsWhiteSpace(TrimStart(s)[0])
    ensures forall i :: 0 <= i < |s| - |TrimStart(s)| ==> IsWhiteSpace(s[i])
    decreases |s|
  {
    if s != [] && IsWhiteSpace(s[0]) {
      TrimStartRemovesBlankPrefix(s[1..]);
    }
  }

  /** TrimEnd removes a suffix made of white space, back to the last
      character that is not. */
  lemma {:induction false} TrimEndRemovesBlankSuffix(s: string)
    ensures |TrimEnd(s)| <= |s| && TrimEnd(s) == s[..|TrimEnd(s)|]
    ensures TrimEnd(s) != [] ==> !IsWhiteSpace(TrimEnd(s)[|TrimEnd(s)| - 1])
    ensures forall i :: |TrimEnd(s)| <= i < |s| ==> IsWhiteSpace(s[i])
    decreases |s|
  {
    if s != [] && IsWhiteSpace(s[|s| - 1]) {
      TrimEndRemovesBlankSuffix(s[..|s| - 1]);
    }
  }

  /** `string.Trim()`: leading and trailing white space removed; neither
      end of the result is white space. */
  function Trim(s: string): (r: string)
    ensures |r| <= |s|
    ensures r != [] ==> !IsWhiteSpace(r[0]) && !IsWhiteSpace(r[|r| - 1])
  {
    var t := TrimStart(s);
    TrimStartRemovesBlankPrefix(s);
    TrimEndRemovesBlankSuffix(t);
    assert TrimEnd(t) != [] ==> TrimEnd(t)[0] == t[0];
    TrimEnd(t)
  }

  /** `string.Length` counts UTF-16 code units: two for a character outside
      the Basic Multilingual Plane. */
  function Utf16Length(s: string): (n: nat)
    ensures |s| <= n <= 2 * |s|
  {
    if s == [] then 0 else Utf16Length(s[..|s| - 1]) + (if s[|s| - 1] as int >= 0x1_0000 then 2 else 1)
  }

  /** The outcome of the check that runs before a join request. */
  datatype JoinCheck = EmptyId | BadLength | Accepted(roomName: string)

  /** Input made only of white space (or nothing) is no ID; an accepted ID
      has no white space at either end and is three to six characters long,
      six UTF-16 code units in all. */
  function CheckRoomId(input: string): (r: JoinCheck)
    ensures r == EmptyId <==> forall i :: 0 <= i < |input| ==> IsWhiteSpace(input[i])
    ensures r.Accepted? ==> && r.roomName != []
                            && !IsWhiteSpace(r.roomName[0]) && !IsWhiteSpace(r.roomName[|r.roomName| - 1])
                            && Utf16Length(r.roomName) == 6 && 3 <= |r.roomName| <= 6
  {
    var roomName := Trim(input);
    TrimIsSlice(input);
    if |roomName| == 0 then EmptyId
    else if Utf16Length(roomName) != 6 then BadLength
    else Accepted(roomName)
  }

  /** Trimming cuts a run of white space off each end and nothing else: the
      result is the slice of the input from k to m, with only white space
      before k and after m. */
  lemma TrimIsSlice(s: string)
    ensures var k, m := |s| - |TrimStart(s)|, |s| - |TrimStart(s)| + |Trim(s)|;
      && 0 <= k <= m <= |s| && Trim(s) == s[k..m]
      && (forall i :: 0 <= i < k ==> IsWhiteSpace(s[i]))
      && (forall i :: m <= i < |s| ==> IsWhiteSpace(s[i]))
  {
    var t := TrimStart(s);
    var r := TrimEnd(t);
    TrimStartRemovesBlankPrefix(s);
    TrimEndRemovesBlankSuffix(t);
    SliceOfSlice(s, t, r);
  }

  lemma SliceOfSlice(s: string, t: string, r: string)
    requires |t| <= |s| && t == s[|s| - |t|..] && |r| <= |t| && r == t[..|r|]
    requires forall i :: |r| <= i < |t| ==> IsWhiteSpace(t[i])
    ensures r == s[|s| - |t|..|s| - |t| + |r|]
    ensures forall i :: |s| - |t| + |r| <= i < |s| ==> IsWhiteSpace(s[i])
  {
    var k := |s| - |t|;
    forall i | k + |r| <= i < |s| ensures IsWhiteSpace(s[i]) {
      assert s[i] == t[i - k];
    }
  }

  /** A string whose ends are not white space is left as it is. */
  lemma {:induction false} TrimKeepsClean(s: string)
    requires s != [] ==> !IsWhiteSpace(s[0]) && !IsWhiteSpace(s[|s| - 1])
    ensures Trim(s) == s
  {
  }

  /** Trimming twice is trimming once. */
  lemma TrimIdempotent(s: string)
    ensures Trim(Trim(s)) == Trim(s)
  {
    TrimKeepsClean(Trim(s));
  }

  lemma {:induction false} Utf16LengthOfBmp(s: string)
    requires forall i :: 0 <= i < |s| ==> s[i] as int < 0x1_0000
    ensures Utf16Length(s) == |s|
    decreases |s|
  {
    if s != [] {
      Utf16LengthOfBmp(s[..|s| - 1]);
    }
  }

  /** A join is requested exactly when the trimmed input is six UTF-16 code
      units long, and it uses the trimmed input; empty input and any other
      length are rejected with their own outcome. */
  lemma JoinAcceptedIffSixUnits(input: string)
    ensures CheckRoomId(input).Accepted? <==> Utf16Length(Trim(input)) == 6
    ensures CheckRoomId(input).Accepted? ==> CheckRoomId(input).roomName == Trim(input)
    ensures CheckRoomId(input) == EmptyId <==> Trim(input) == []
  {
  }

  /** The check sees only the trimmed text: checking an input that was
      already trimmed gives the same outcome. */
  lemma JoinCheckSeesTrimmedText(input: string)
    ensures CheckRoomId(Trim(input)) == CheckRoomId(input)
  {
    TrimIdempotent(input);
  }

  /** A string that is all white space trims to nothing. */
  lemma {:induction false} BlankTrimsToEmpty(s: string)
    requires forall i :: 0 <= i < |s| ==> IsWhiteSpace(s[i])
    ensures Trim(s) == []
    decreases |s|
  {
    if s != [] {
      BlankTrimsToEmpty(s[1..]);
    }
  }

  lemma {:induction false} TrimStartOfPadded(pre: string, x: string)
    requires forall i :: 0 <= i < |pre| ==> IsWhiteSpace(pre[i])
    requires x != [] && !IsWhiteSpace(x[0])
    ensures TrimStart(pre + x) == x
    decreases |pre|
  {
    if pre != [] {
      assert (pre + x)[1..] == pre[1..] + x;
      TrimStartOfPadded(pre[1..], x);
    } else {
      assert pre + x == x;
    }
  }

  lemma {:induction false} TrimEndOfPadded(y: string, post: string)
    requires forall i :: 0 <= i < |post| ==> IsWhiteSpace(post[i])
    requires y != [] && !IsWhiteSpace(y[|y| - 1])
    ensures TrimEnd(y + post) == y
    decreases |post|
  {
    if post != [] {
      var p := post[..|post| - 1];
      assert (y + post)[..|y + post| - 1] == y + p;
      TrimEndOfPadded(y, p);
    } else {
      assert y + post == y;
    }
  }

  /** White space before and after a clean string is all that trimming removes. */
  lemma TrimOfPadded(pre: string, mid: string, post: string)
    requires forall i :: 0 <= i < |pre| ==> IsWhiteSpace(pre[i])
    requires forall i :: 0 <= i < |post| ==> IsWhiteSpace(post[i])
    requires mid != [] && !IsWhiteSpace(mid[0]) && !IsWhiteSpace(mid[|mid| - 1])
    ensures Trim(pre + mid + post) == mid
  {
    assert pre + mid + post == pre + (mid + post);
    TrimStartOfPadded(pre, mid + post);
    TrimEndOfPadded(mid, post);
  }

  /** A clean string of six UTF-16 code units is accepted as it is. */
  lemma CleanSixUnitsAccepted(s: string)
    requires s != [] && !IsWhiteSpace(s[0]) && !IsWhiteSpace(s[|s| - 1])
    requires Utf16Length(s) == 6
    ensures CheckRoomId(s) == Accepted(s)
  {
    TrimKeepsClean(s);
  }

  lemma {:induction false} Utf16LengthOfAstral(s: string)
    requires forall i :: 0 <= i < |s| ==> s[i] as int >= 0x1_0000
    ensures Utf16Length(s) == 2 * |s|
    decreases |s|
  {
    if s != [] {
      Utf16LengthOfAstral(s[..|s| - 1]);
    }
  }

  /** Only the length is checked: six letters pass as a room ID. */
  lemma SixLettersAccepted()
    ensures CheckRoomId("abcdef") == Accepted("abcdef")
  {
    Utf16LengthOfBmp("abcdef");
    CleanSixUnitsAccepted("abcdef");
  }

  /** Spaces around the ID are trimmed off before the length is counted. */
  lemma SurroundingSpacesTrimmed()
    ensures CheckRoomId("  123456\t") == Accepted("123456")
  {
    TrimOfPadded("  ", "123456", "\t");
    assert "  " + "123456" + "\t" == "  123456\t";
    Utf16LengthOfBmp("123456");
  }

  /** Three characters outside the Basic Multilingual Plane count as six
      code units and pass. */
  lemma AstralCharactersCountTwice()
    ensures CheckRoomId("\U{1F511}\U{1F511}\U{1F511}") == Accepted("\U{1F511}\U{1F511}\U{1F511}")
  {
    Utf16LengthOfAstral("\U{1F511}\U{1F511}\U{1F511}");
    CleanSixUnitsAccepted("\U{1F511}\U{1F511}\U{1F511}");
  }

  /** Five digits fail the length check. */
  lemma FiveDigitsRejected()
    ensures CheckRoomId("12345") == BadLength
  {
    Utf16LengthOfBmp("12345");
    TrimKeepsClean("12345");
  }

  /** Blanks alone, ideographic space included, count as no ID at all. */
  lemma BlankRejected()
    ensures CheckRoomId(" \t\U{3000}") == EmptyId
  {
    BlankTrimsToEmpty(" \t\U{3000}");
  }

  // ----- Room creation -----

  /** `Random.Range(100000, 999999)`: the upper bound is exclusive. */
  predicate IsRoomNumber(n: int) {
    100000 <= n < 999999
  }

  /** `ToString()` of the drawn number: six digits that read back as it. */
  function RoomNameFor(n: int): (name: string)
    requires IsRoomNumber(n)
    ensures |name| == 6 && Text.AllDigits(name)
    ensures Text.ParseDecimal(name) == n
  {
    Text.SixDigits(n);
    Text.ParseDecimalString(n);
    Text.DecimalString(n)
  }

  /** A generated room name is six digits, reads back as the drawn number,
      and passes the join check unchanged. */
  lemma GeneratedNameIsAccepted(n: int)
    requires IsRoomNumber(n)
    ensures |RoomNameFor(n)| == 6 && Text.AllDigits(RoomNameFor(n))
    ensures Text.ParseDecimal(RoomNameFor(n)) == n
    ensures CheckRoomId(RoomNameFor(n)) == Accepted(RoomNameFor(n))
  {
    var s := RoomNameFor(n);
    Text.SixDigits(n);
    Text.ParseDecimalString(n);
    assert Text.IsDigit(s[0]) && Text.IsDigit(s[5]);
    TrimKeepsClean(s);
    Utf16LengthOfBmp(s);
  }

  /** `RoomOptions` of a created room. */
  datatype RoomOptions = RoomOptions(maxPlayers: int, isVisible: bool, isOpen: bool)

  /** Private two-player rooms, reachable only by ID, open to joiners. */
  const PrivatePairRoom := RoomOptions(2, false, true)

  /** The Photon operations the title screen issues. */
  datatype PhotonRequest =
    | ConnectUsingSettings
    | CreateRoom(name: string, options: RoomOptions)
    | JoinRoom(name: string)
    | LoadLevel(scene: string)

  const StatusConnecting := "Photonに接続中..."
  const StatusChoose := "部屋を作成するか、IDを入力して参加してください"
  const StatusEnterId := "部屋IDを入力してください"
  const StatusIdIsSixDigits := "部屋IDは6桁の数字です"
  const StatusJoined := "部屋に参加しました！マッチングルームに移動中..."
  const StatusCreateFailed := "部屋作成に失敗しました。もう一度お試しください。"

  class TitleController {
    var createRoomInteractable: bool
    var joinRoomInteractable: bool
    var roomIdInputInteractable: bool
    var settingsInteractable: bool
    var connectingPanelActive: bool
    var statusText: string
    /** The text typed into the room ID field. */
    var roomIdInput: string
    var requests: seq<PhotonRequest>

    /** Every control has the given interactable state. */
    predicate ControlsAre(enabled: bool)
      reads this
    {
      && createRoomInteractable == enabled && joinRoomInteractable == enabled
      && roomIdInputInteractable == enabled && settingsInteractable == enabled
    }

    function Controls(): (bool, bool, bool, bool)
      reads this
    {
      (createRoomInteractable, joinRoomInteractable, roomIdInputInteractable, settingsInteractable)
    }

    /** The widgets start as laid out in the scene. */
    constructor (controlsEnabled: bool, connectingPanelActive: bool, statusText: string)
      ensures ControlsAre(controlsEnabled) && this.connectingPanelActive == connectingPanelActive
      ensures this.statusText == statusText && roomIdInput == "" && requests == []
    {
      createRoomInteractable, joinRoomInteractable := controlsEnabled, controlsEnabled;
      roomIdInputInteractable, settingsInteractable := controlsEnabled, controlsEnabled;
      this.connectingPanelActive := connectingPanelActive;
      this.statusText := statusText;
      roomIdInput := "";
      requests := [];
    }

    method SetInteractable(interactable: bool)
      modifies this
      ensures ControlsAre(interactable)
      ensures connectingPanelActive == old(connectingPanelActive) && statusText == old(statusText)
      ensures roomIdInput == old(roomIdInput) && requests == old(requests)
    {
      createRoomInteractable := interactable;
      joinRoomInteractable := interactable;
      roomIdInputInteractable := interactable;
      settingsInteractable := interactable;
    }

    /** The player types into the room ID field. */
    method EditRoomId(text: string)
      modifies this
      ensures roomIdInput == text
      ensures Controls() == old(Controls()) && connectingPanelActive == old(connectingPanelActive)
      ensures statusText == old(statusText) && requests == old(requests)
    {
      roomIdInput := text;
    }

    method Start(isConnected: bool)
      modifies this
      ensures !isConnected ==> && ControlsAre(false) && statusText == StatusConnecting
                               && requests == old(requests) + [ConnectUsingSettings]
                               && connectingPanelActive == old(connectingPanelActive)
      ensures isConnected ==> && ControlsAre(true) && statusText == StatusChoose
                              && requests == old(requests) && !connectingPanelActive
      ensures roomIdInput == old(roomIdInput)
    {
      SetInteractable(false);
      statusText := StatusConnecting;
      if !isConnected {
        requests := requests + [ConnectUsingSettings];
      } else {
        OnConnectedToMaster();
      }
    }

    method OnConnectedToMaster()
      modifies this
      ensures ControlsAre(true) && statusText == StatusChoose && !connectingPanelActive
      ensures roomIdInput == old(roomIdInput) && requests == old(requests)
    {
      statusText := StatusChoose;
      SetInteractable(true);
      connectingPanelActive := false;
    }

    method OnDisconnected(cause: string)
      modifies this
      ensures ControlsAre(false) && statusText == "接続エラー: " + cause
      ensures connectingPanelActive == old(connectingPanelActive)
      ensures roomIdInput == old(roomIdInput) && requests == old(requests)
    {
      statusText := "接続エラー: " + cause;
      SetInteractable(false);
    }

    /** `randomNumber` is the value drawn by `Random.Range(100000, 999999)`. */
    method OnCreateRoomClicked(randomNumber: int)
      requires IsRoomNumber(randomNumber)
      modifies this
      ensures ControlsAre(false)
      ensures requests == old(requests) + [CreateRoom(RoomNameFor(randomNumber), PrivatePairRoom)]
      ensures statusText == "部屋「" + RoomNameFor(randomNumber) + "」を作成中..."
      ensures connectingPanelActive == old(connectingPanelActive) && roomIdInput == old(roomIdInput)
    {
      var roomName := Text.DecimalString(randomNumber);
      statusText := "部屋「" + roomName + "」を作成中...";
      SetInteractable(false);
      var roomOptions := RoomOptions(2, false, true);
      requests := requests + [CreateRoom(roomName, roomOptions)];
    }

    /** A rejected ID only changes the status text. */
    method OnJoinRoomClicked()
      modifies this
      ensures match CheckRoomId(old(roomIdInput))
        case EmptyId =>
          statusText == StatusEnterId && Controls() == old(Controls()) && requests == old(requests)
        case BadLength =>
          statusText == StatusIdIsSixDigits && Controls() == old(Controls()) && requests == old(requests)
        case Accepted(name) =>
          && statusText == "部屋「" + name + "」に参加中..." && ControlsAre(false)
          && requests == old(requests) + [JoinRoom(name)]
      ensures connectingPanelActive == old(connectingPanelActive) && roomIdInput == old(roomIdInput)
    {
      var roomName := Trim(roomIdInput);
      if |roomName| == 0 {
        statusText := StatusEnterId;
        return;
      }
      if Utf16Length(roomName) != 6 {
        statusText := StatusIdIsSixDigits;
        return;
      }
      statusText := "部屋「" + roomName + "」に参加中...";
      SetInteractable(false);
      requests := requests + [JoinRoom(roomName)];
    }

    method OnJoinedRoom()
      modifies this
      ensures statusText == StatusJoined && requests == old(requests) + [LoadLevel("MatchingRoom")]
      ensures Controls() == old(Controls()) && connectingPanelActive == old(connectingPanelActive)
      ensures roomIdInput == old(roomIdInput)
    {
      statusText := StatusJoined;
      requests := requests + [LoadLevel("MatchingRoom")];
    }

    method OnCreateRoomFailed(returnCode: int, message: string)
      modifies this
      ensures ControlsAre(true) && statusText == StatusCreateFailed
      ensures connectingPanelActive == old(connectingPanelActive)
      ensures roomIdInput == old(roomIdInput) && requests == old(requests)
    {
      statusText := StatusCreateFailed;
      SetInteractable(true);
    }

    method OnJoinRoomFailed(returnCode: int, message: string)
      modifies this
      ensures ControlsAre(true) && statusText == "部屋参加失敗: " + message + "\n（IDが間違っているか、満員です）"
      ensures connectingPanelActive == old(connectingPanelActive)
      ensures roomIdInput == old(roomIdInput) && requests == old(requests)
    {
      statusText := "部屋参加失敗: " + message + "\n（IDが間違っているか、満員です）";
      SetInteractable(true);
    }
  }
}
