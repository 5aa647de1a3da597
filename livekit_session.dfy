/** The voice-room session state behind the conversation screen (hooks/use-livekit.ts): the
    transport room, its connection state, the microphone flag, the list of remote participants
    and the chat log. They change through the transport's event handlers and through the actions
    connect, disconnect, toggleMic and sendMessage. The transport, the UTF-8 codec, JSON and the
    clock are abstract: each action receives the outcomes of the transport calls it makes, and the
    clock reading that stamps the messages it adds. */
module LiveKitSession {
  import opened Common
  import opened Text
  import opened Seqs

  /** The connection states the transport reports. */
  datatype ConnectionState = Disconnected | Connecting | Connected | Reconnecting | SignalReconnecting

  /** One entry of the chat log. `id` is the decimal text of the clock reading that made it. */
  datatype ChatMessage = ChatMessage(id: string, sender: string, text: string, timestamp: int, isLocal: bool)

  /** A transport room, identified by the order in which the session created it. */
  datatype Room = Room(serial: nat)

  /** A value as `JSON.parse` produces it. */
  datatype Json =
    | JNull
    | JBool(b: bool)
    | JNumber(n: int)
    | JString(s: string)
    | JArray(items: seq<Json>)
    | JObject(fields: map<string, Json>)

  /** A data-channel payload, seen through the decoder: the value that decoding its bytes as UTF-8
      and parsing them as JSON produces, or None when parsing throws. */
  datatype Payload = Payload(parsed: Option<Json>)

  /** A user-visible alert: its title and its message. */
  datatype Notice = Notice(title: string, message: string)

  /** A token as the endpoint hands it back: `fetchLiveKitToken` throws instead of returning an
      empty one. */
  type FetchedToken = t: string | t != "" witness "t"

  /** What the token endpoint does when connect asks it for a token. */
  datatype TokenFetch = Fetched(token: FetchedToken) | FetchThrew

  /** The server address the session starts with. */
  const DefaultServerUrl: string := "wss://voco-agent-project-8w4372xl.livekit.cloud"

  const SystemSender: string := "System"
  const LocalSender: string := "Me"
  const UnknownSender: string := "Unknown"
  const ConnectedText: string := "방에 연결되었습니다."

  const MissingUrlNotice: Notice := Notice("오류", "LiveKit 서버 URL을 입력해주세요.")
  const TokenIssueFailedNotice: Notice := Notice("오류", "토큰 발급에 실패했습니다.")
  const TokenRequiredNotice: Notice := Notice("오류", "토큰을 입력해주세요.")
  const ConnectFailedNotice: Notice := Notice("연결 실패", "방 연결에 실패했습니다. URL과 토큰을 확인해주세요.")

  /** The system message `addSystemMessage` appends. */
  function SystemMessage(text: string, now: int): ChatMessage {
    ChatMessage(IntText(now), SystemSender, text, now, false)
  }

  function JoinedText(identity: string): string {
    identity + "님이 입장했습니다."
  }

  function LeftText(identity: string): string {
    identity + "님이 퇴장했습니다."
  }

  /** The payload `sendMessage` publishes: `{ type: 'chat', text }`. */
  function ChatPayload(text: string): Payload {
    Payload(Some(JObject(map["type" := JString("chat"), "text" := JString(text)])))
  }

  /** `participant?.identity || 'Unknown'`. */
  function SenderName(from: Option<string>): string {
    if from.Some? && from.value != "" then from.value else UnknownSender
  }

  /** `message.type === 'chat'` for the parsed payload: it parsed, to an object whose `type` field
      is the string `'chat'`. */
  predicate IsChatPayload(payload: Payload) {
    && payload.parsed.Some? && payload.parsed.value.JObject?
    && "type" in payload.parsed.value.fields
    && payload.parsed.value.fields["type"] == JString("chat")
  }

  /** The message the DataReceived handler appends for a payload, if any: only a parsed object whose
      `type` is the string `'chat'` yields one. */
  function ReceivedChat(payload: Payload, from: Option<string>, now: int): (m: Option<ChatMessage>)
    ensures m.Some? <==> IsChatPayload(payload)
    ensures m.Some? ==> m.value.sender == SenderName(from) && !m.value.isLocal && m.value.timestamp == now
    ensures m.Some? ==>
      var fields := payload.parsed.value.fields;
      m.value.text == if "text" in fields && fields["text"].JString? then fields["text"].s else ""
    ensures payload.parsed.None? ==> m.None?
  {
    match payload.parsed
    case Some(JObject(fields)) =>
      if "type" in fields && fields["type"] == JString("chat") then
        var text := if "text" in fields && fields["text"].JString? then fields["text"].s else "";
        Some(ChatMessage(IntText(now), SenderName(from), text, now, false))
      else None
    case _ => None
  }

  /** A payload built by `sendMessage` is received as a chat message with the same text. */
  lemma ChatPayloadRoundTrip(text: string, from: Option<string>, now: int)
    ensures ReceivedChat(ChatPayload(text), from, now) == Some(ChatMessage(IntText(now), SenderName(from), text, now, false))
  {
  }

  /** The state `useLiveKit` keeps. `roomsCreated` counts the rooms connect has constructed and
      `micRequested` is the microphone state last set on the transport, None before any. */
  class Session {
    const tokenEndpoint: string
    var serverUrl: string
    var token: string
    var roomName: Option<string>
    var connectionState: ConnectionState
    var room: Option<Room>
    var isConnecting: bool
    var isMicEnabled: bool
    var participants: seq<string>
    var messages: seq<ChatMessage>
    var roomsCreated: nat
    var micRequested: Option<bool>

    /** The current room is one the session created, so every room created later differs from it. */
    ghost predicate Valid()
      reads this
    {
      room.Some? ==> room.value.serial < roomsCreated
    }

    /** The initial state. The configured token endpoint is a parameter; the room name starts
        undefined because the configuration has no default room. */
    constructor (tokenEndpoint: string)
      ensures Valid()
      ensures this.tokenEndpoint == tokenEndpoint
      ensures serverUrl == DefaultServerUrl && token == "" && roomName == None
      ensures connectionState == Disconnected && room == None && !isConnecting && isMicEnabled
      ensures participants == [] && messages == []
      ensures roomsCreated == 0 && micRequested == None
    {
      this.tokenEndpoint := tokenEndpoint;
      serverUrl := DefaultServerUrl;
      token := "";
      roomName := None;
      connectionState := Disconnected;
      room := None;
      isConnecting := false;
      isMicEnabled := true;
      participants := [];
      messages := [];
      roomsCreated := 0;
      micRequested := None;
    }

    /** `isConnected`. */
    function IsConnected(): (r: bool)
      reads this
      ensures r <==> connectionState == Connected
    {
      connectionState == Connected
    }

    method SetServerUrl(url: string)
      requires Valid()
      modifies this`serverUrl
      ensures Valid() && serverUrl == url
    {
      serverUrl := url;
    }

    method SetToken(t: string)
      requires Valid()
      modifies this`token
      ensures Valid() && token == t
    {
      token := t;
    }

    method SetRoomName(name: string)
      requires Valid()
      modifies this`roomName
      ensures Valid() && roomName == Some(name)
    {
      roomName := Some(name);
    }

    /** The ConnectionStateChanged handler: the only event handler that writes `connectionState`. */
    method OnConnectionStateChanged(state: ConnectionState)
      requires Valid()
      modifies this`connectionState
      ensures Valid() && connectionState == state
    {
      connectionState := state;
    }

    /** The ParticipantConnected handler: the identity is appended, without removing duplicates, and
        one system message is logged. */
    method OnParticipantConnected(identity: string, now: int)
      requires Valid()
      modifies this`participants, this`messages
      ensures Valid()
      ensures participants == old(participants) + [identity]
      ensures messages == old(messages) + [SystemMessage(JoinedText(identity), now)]
    {
      participants := participants + [identity];
      messages := messages + [SystemMessage(JoinedText(identity), now)];
    }

    /** The ParticipantDisconnected handler: every copy of the identity is removed, the others keep
        their order, and one system message is logged. */
    method OnParticipantDisconnected(identity: string, now: int)
      requires Valid()
      modifies this`participants, this`messages
      ensures Valid()
      ensures participants == Without(old(participants), identity)
      ensures identity !in participants
      ensures messages == old(messages) + [SystemMessage(LeftText(identity), now)]
    {
      participants := Without(participants, identity);
      messages := messages + [SystemMessage(LeftText(identity), now)];
    }

    /** The DataReceived handler: a chat payload appends one remote message; a payload that does not
        parse, or whose type is not `'chat'`, changes nothing. */
    method OnDataReceived(payload: Payload, from: Option<string>, now: int)
      requires Valid()
      modifies this`messages
      ensures Valid()
      ensures !IsChatPayload(payload) ==> messages == old(messages)
      ensures IsChatPayload(payload) ==>
        && |messages| == |old(messages)| + 1 && messages[..|old(messages)|] == old(messages)
        && messages[|old(messages)|] == ReceivedChat(payload, from, now).value
    {
      var m := ReceivedChat(payload, from, now);
      if m.Some? {
        messages := messages + [m.value];
      }
    }

    /** `connect`. `fetch` is what the token endpoint does if it is asked, `joins` whether the room's
        connect resolves, `micOk` whether enabling the microphone resolves, and `remote` the
        identities of the room's remote participants once it is connected. The notice returned is
        the alert shown, if any. */
    method Connect(fetch: TokenFetch, joins: bool, micOk: bool, remote: seq<string>, now: int)
      returns (notice: Option<Notice>)
      requires Valid()
      modifies this
      ensures Valid()
      // fields connect never writes
      ensures serverUrl == old(serverUrl) && roomName == old(roomName)
      ensures connectionState == old(connectionState) && isMicEnabled == old(isMicEnabled)
      // an empty server address stops it before any state is touched
      ensures old(serverUrl) == "" ==>
        && notice == Some(MissingUrlNotice) && isConnecting == old(isConnecting)
        && token == old(token) && room == old(room) && roomsCreated == old(roomsCreated)
        && participants == old(participants) && messages == old(messages)
        && micRequested == old(micRequested)
      // on every later path isConnecting ends false
      ensures old(serverUrl) != "" ==> !isConnecting
      // the token is fetched only when none was entered and an endpoint is configured
      ensures var asks := old(serverUrl) != "" && old(token) == "" && tokenEndpoint != "";
        token == if asks && fetch.Fetched? then fetch.token else old(token)
      // a room is constructed exactly when the address and a non-empty token are there
      ensures var created := old(serverUrl) != "" && token != "" && !(old(token) == "" && tokenEndpoint != "" && fetch.FetchThrew?);
        roomsCreated == old(roomsCreated) + (if created then 1 else 0)
      ensures old(serverUrl) != "" && old(token) == "" && tokenEndpoint != "" && fetch.FetchThrew? ==>
        notice == Some(ConnectFailedNotice) && roomsCreated == old(roomsCreated)
      ensures old(serverUrl) != "" && token == "" && !(old(token) == "" && tokenEndpoint != "" && fetch.FetchThrew?) ==>
        notice == Some(if tokenEndpoint != "" then TokenIssueFailedNotice else TokenRequiredNotice)
      // a fetch either throws or yields a token, so the token-issue alert is never shown
      ensures notice != Some(TokenIssueFailedNotice)
      // success: the snapshot replaces the participants, the new room is set, one system message
      ensures roomsCreated == old(roomsCreated) + 1 && joins && micOk ==>
        && notice == None && room == Some(Room(old(roomsCreated)))
        && participants == remote && messages == old(messages) + [SystemMessage(ConnectedText, now)]
        && micRequested == Some(true)
      // the room a successful connect sets is a fresh one, never the room held before
      ensures roomsCreated == old(roomsCreated) + 1 && joins && micOk && old(room).Some? ==>
        room != old(room)
      // any failure leaves the room, the participants and the log as they were
      ensures !(roomsCreated == old(roomsCreated) + 1 && joins && micOk) ==>
        && room == old(room) && participants == old(participants) && messages == old(messages)
        && micRequested == old(micRequested)
      ensures roomsCreated == old(roomsCreated) + 1 && !(joins && micOk) ==> notice == Some(ConnectFailedNotice)
    {
      if serverUrl == "" {
        return Some(MissingUrlNotice);
      }
      isConnecting := true;
      var resolvedToken := token;
      if resolvedToken == "" && tokenEndpoint != "" {
        match fetch
        case FetchThrew =>
          isConnecting := false;
          return Some(ConnectFailedNotice);
        case Fetched(t) =>
          resolvedToken := t;
          token := t;
      }
      if resolvedToken == "" {
        isConnecting := false;
        return Some(if tokenEndpoint != "" then TokenIssueFailedNotice else TokenRequiredNotice);
      }
      var newRoom := Room(roomsCreated);
      roomsCreated := roomsCreated + 1;
      if !joins || !micOk {
        isConnecting := false;
        return Some(ConnectFailedNotice);
      }
      micRequested := Some(true);
      participants := remote;
      room := Some(newRoom);
      messages := messages + [SystemMessage(ConnectedText, now)];
      isConnecting := false;
      notice := None;
    }

    /** `disconnect`. `ok` is whether the room's disconnect resolves; `rejected` is whether the
        action's promise rejects. Without a room nothing happens. */
    method Disconnect(ok: bool) returns (rejected: bool)
      requires Valid()
      modifies this
      ensures Valid()
      ensures rejected <==> old(room).Some? && !ok
      ensures old(room).Some? && ok ==>
        && room == None && connectionState == Disconnected && participants == [] && messages == []
      ensures !(old(room).Some? && ok) ==>
        && room == old(room) && connectionState == old(connectionState)
        && participants == old(participants) && messages == old(messages)
      ensures isMicEnabled == old(isMicEnabled) && isConnecting == old(isConnecting)
      ensures serverUrl == old(serverUrl) && token == old(token) && roomName == old(roomName)
      ensures roomsCreated == old(roomsCreated) && micRequested == old(micRequested)
    {
      rejected := false;
      if room.Some? {
        if !ok {
          return true;
        }
        room := None;
        connectionState := Disconnected;
        participants := [];
        messages := [];
      }
    }

    /** `toggleMic`. `ok` is whether the transport call resolves; the flag changes only after it
        does. Without a room nothing happens. */
    method ToggleMic(ok: bool) returns (rejected: bool)
      requires Valid()
      modifies this`isMicEnabled, this`micRequested
      ensures Valid()
      ensures rejected <==> room.Some? && !ok
      ensures room.Some? && ok ==> isMicEnabled == !old(isMicEnabled) && micRequested == Some(isMicEnabled)
      ensures !(room.Some? && ok) ==> isMicEnabled == old(isMicEnabled) && micRequested == old(micRequested)
    {
      rejected := false;
      if room.Some? {
        var newState := !isMicEnabled;
        if !ok {
          return true;
        }
        micRequested := Some(newState);
        isMicEnabled := newState;
      }
    }

    /** `sendMessage`. `ok` is whether publishing resolves; `published` is the payload handed to the
        transport, None when the action returns early. */
    method SendMessage(text: string, ok: bool, now: int) returns (published: Option<Payload>)
      requires Valid()
      modifies this`messages
      ensures Valid()
      ensures published == if room.Some? && !IsBlank(text) then Some(ChatPayload(Trim(text))) else None
      ensures messages == if published.Some? && ok
        then old(messages) + [ChatMessage(IntText(now), LocalSender, Trim(text), now, true)]
        else old(messages)
    {
      var trimmed := Trim(text);
      if room.None? || trimmed == "" {
        return None;
      }
      published := Some(ChatPayload(trimmed));
      if ok {
        messages := messages + [ChatMessage(IntText(now), LocalSender, trimmed, now, true)];
      }
    }
  }

  /** Without a room, disconnect and toggleMic change nothing, and without a token and an endpoint
      connect creates no room. */
  method ScenarioWithoutRoom()
  {
    var s := new Session("");
    var rejected := s.Disconnect(true);
    assert !rejected && s.room == None && s.participants == [] && s.messages == [];
    rejected := s.ToggleMic(true);
    assert s.isMicEnabled;
    var notice := s.Connect(FetchThrew, true, true, ["p1"], 1000);
    assert notice == Some(TokenRequiredNotice) && s.roomsCreated == 0 && !s.isConnecting;
  }

  /** A successful connect takes the snapshot of the remote participants; a repeated join is not
      deduplicated and a leave removes every copy. */
  method ScenarioParticipants()
  {
    var s := new Session("");
    s.SetToken("tok");
    var notice := s.Connect(FetchThrew, true, true, ["p1", "agent-1"], 2000);
    assert notice == None && s.participants == ["p1", "agent-1"] && s.room == Some(Room(0));
    assert |s.messages| == 1 && s.messages[0].sender == SystemSender;
    s.OnParticipantConnected("p1", 3000);
    assert s.participants == ["p1", "agent-1", "p1"];
    s.OnParticipantDisconnected("p1", 4000);
    assert "p1" !in s.participants;
  }

  /** Two toggles restore the microphone flag, and a blank message is not sent. */
  method ScenarioMicAndChat()
  {
    var s := new Session("");
    s.SetToken("tok");
    var notice := s.Connect(FetchThrew, true, true, [], 2000);
    var rejected := s.ToggleMic(true);
    assert !s.isMicEnabled;
    rejected := s.ToggleMic(true);
    assert s.isMicEnabled;
    assert IsWhitespace(" \t"[0]) && IsWhitespace(" \t"[1]);
    var published := s.SendMessage(" \t", true, 5000);
    assert published == None;
  }
}
