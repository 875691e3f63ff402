/** The client app's connection state: the `canJoin` test, `connect`, and the
    state changes of `ws.onmessage`. */
module ClientContext {
  import opened Wrappers
  import opened JsonValues
  import opened Protocol
  import opened YouTube

  /** `'idle' | 'connecting' | 'joined' | 'error'` */
  datatype Status = Idle | Connecting | Joined | Failed

  datatype Peers = Peers(clientPresent: bool, controlPresent: bool)

  /** The state the message handler updates. */
  datatype ClientState = ClientState(
    status: Status,
    videoUrl: string,
    videoId: string,
    isPlaying: bool,
    playbackSpeed: real,
    autoPlay: bool,
    peerStatus: Peers)

  /** The `useState` initial values. */
  const Initial := ClientState(Idle, "", "", true, 1.0, true, Peers(false, false))

  /** The initial values agree with each other: no URL, so no video id, and speed 1. */
  lemma InitialConsistent()
    ensures Consistent(Initial)
  {
    FirstPatternNone("", Patterns);
  }

  /** What the handler keeps true: the speed is within [0.25, 2], and the
      video id is the one extracted from the video URL (`''` when there is none). */
  ghost predicate Consistent(s: ClientState) {
    && 0.25 <= s.playbackSpeed <= 2.0
    && s.videoId == ExtractYouTubeVideoId(s.videoUrl).GetOr("")
  }

  /** `canJoin = /^\d{6}$/.test(code)` */
  function CanJoin(code: string): (b: bool)
    ensures b <==> |code| == 6 && forall i | 0 <= i < |code| :: IsAsciiDigit(code[i])
  {
    SixDigits(code)
  }

  /** The frame `ws.onopen` sends: `{ type: 'join', role: 'client', code }`. */
  function ClientJoinFrame(code: string): (v: Json)
    ensures HasType(v, "join") && Get(v, "role") == Some(JString("client")) && Get(v, "code") == Some(JString(code))
  {
    JObject(map["type" := JString("join"), "role" := JString("client"), "code" := JString(code)])
  }

  /** The `control` branch: one action changes the playback flags. */
  function ApplyControl(s: ClientState, v: Json): (t: ClientState)
    ensures t == s.(isPlaying := t.isPlaying, playbackSpeed := t.playbackSpeed, autoPlay := t.autoPlay)
    ensures t.playbackSpeed != s.playbackSpeed ==> 0.25 <= t.playbackSpeed <= 2.0
    ensures t.autoPlay != s.autoPlay ==> !t.autoPlay && !t.isPlaying
  {
    if Get(v, "action") == Some(JString("pause")) then s.(isPlaying := false)
    else if Get(v, "action") == Some(JString("resume")) then s.(isPlaying := true)
    else if Get(v, "action") == Some(JString("speed")) && NumberField(v, "speed").Some? then
      s.(playbackSpeed := ClampSpeed(NumberField(v, "speed").value))
    else if Get(v, "action") == Some(JString("stop")) then s.(isPlaying := false, autoPlay := false)
    else s   // `seek` only dispatches a DOM event; other actions are ignored
  }

  /** The state after `ws.onmessage` handles one frame. */
  function Receive(s: ClientState, frame: Frame): (t: ClientState)
    ensures Consistent(s) ==> Consistent(t)
    ensures frame.Garbled? ==> t == s
    ensures frame.Text? && HasType(frame.value, "play") && StringField(frame.value, "url").Some? ==>
      var url := StringField(frame.value, "url").value;
      && t == s.(videoUrl := url, videoId := t.videoId, autoPlay := true)
      && (t.videoId == "" || IsVideoId(t.videoId))
      && t.videoId == ExtractYouTubeVideoId(url).GetOr("")
    ensures frame.Text? && HasType(frame.value, "control") && Get(frame.value, "action") == Some(JString("speed")) && NumberField(frame.value, "speed").Some? ==>
      t == s.(playbackSpeed := t.playbackSpeed) && 0.25 <= t.playbackSpeed <= 2.0
      && t.playbackSpeed == ClampSpeed(NumberField(frame.value, "speed").value)
      && (0.25 <= NumberField(frame.value, "speed").value <= 2.0 ==> t.playbackSpeed == NumberField(frame.value, "speed").value)
    ensures t.status != s.status ==> frame.Text? && ((HasType(frame.value, "joined") && t.status == Joined) || (HasType(frame.value, "error") && t.status == Failed))
  {
    match frame
    case Garbled => s   // `JSON.parse` threw; the `catch` swallows it
    case Text(v) =>
      if HasType(v, "joined") then s.(status := Joined)
      else if HasType(v, "play") && StringField(v, "url").Some? then
        var url := StringField(v, "url").value;
        s.(videoUrl := url, videoId := ExtractYouTubeVideoId(url).GetOr(""), autoPlay := true)
      else if HasType(v, "control") then ApplyControl(s, v)
      else if HasType(v, "peer_status") then
        s.(peerStatus := Peers(Truthy(Get(v, "clientPresent")), Truthy(Get(v, "controlPresent"))))
      else if HasType(v, "error") then s.(status := Failed)
      else s
  }

  /** The state after a sequence of frames, handled in order. */
  function ReceiveAll(s: ClientState, frames: seq<Frame>): (t: ClientState)
    ensures Consistent(s) ==> Consistent(t)
    ensures (forall i | 0 <= i < |frames| :: frames[i].Garbled?) ==> t == s
    decreases |frames|
  {
    if frames == [] then s else ReceiveAll(Receive(s, frames[0]), frames[1..])
  }

  /** `joined` and `error` set the status; `peer_status` sets the presence
      flags to the truthiness of its two fields; nothing else changes. */
  lemma StatusAndPresence(s: ClientState, v: Json)
    ensures HasType(v, "joined") ==> Receive(s, Text(v)) == s.(status := Joined)
    ensures HasType(v, "error") ==> Receive(s, Text(v)) == s.(status := Failed)
    ensures HasType(v, "peer_status") ==>
      Receive(s, Text(v)) == s.(peerStatus := Peers(Truthy(Get(v, "clientPresent")), Truthy(Get(v, "controlPresent"))))
  {
  }

  /** The effect of each `control` action; an unknown action, a `seek`, or a
      `speed` without a number leaves the state as it was. */
  lemma ControlActions(s: ClientState, v: Json)
    requires HasType(v, "control")
    ensures Get(v, "action") == Some(JString("pause")) ==> Receive(s, Text(v)) == s.(isPlaying := false)
    ensures Get(v, "action") == Some(JString("resume")) ==> Receive(s, Text(v)) == s.(isPlaying := true)
    ensures Get(v, "action") == Some(JString("stop")) ==> Receive(s, Text(v)) == s.(isPlaying := false, autoPlay := false)
    ensures Get(v, "action") == Some(JString("speed")) && NumberField(v, "speed").Some? ==>
      Receive(s, Text(v)) == s.(playbackSpeed := ClampSpeed(NumberField(v, "speed").value))
    ensures Get(v, "action") !in {Some(JString("pause")), Some(JString("resume")), Some(JString("stop")), Some(JString("speed"))}
      ==> Receive(s, Text(v)) == s
    ensures Get(v, "action") == Some(JString("speed")) && NumberField(v, "speed").None? ==> Receive(s, Text(v)) == s
  {
  }

  /** A message of a type the handler does not know, or a `play` without a
      string `url`, leaves the state as it was. */
  lemma UnrecognisedIgnored(s: ClientState, v: Json)
    requires Get(v, "type") !in {Some(JString("joined")), Some(JString("play")), Some(JString("control")), Some(JString("peer_status")), Some(JString("error"))}
      || (HasType(v, "play") && StringField(v, "url").None?)
    ensures Receive(s, Text(v)) == s
  {
  }

  /** The client provider's state variables. */
  class ClientProvider {
    var code: string
    var status: Status
    var videoUrl: string
    var videoId: string
    var isPlaying: bool
    var playbackSpeed: real
    var autoPlay: bool
    var peerStatus: Peers

    function State(): ClientState
      reads this
    {
      ClientState(status, videoUrl, videoId, isPlaying, playbackSpeed, autoPlay, peerStatus)
    }

    ghost predicate Valid()
      reads this
    {
      Consistent(State())
    }

    constructor ()
      ensures code == "" && State() == Initial && Valid()
    {
      code := "";
      status := Idle;
      videoUrl := "";
      videoId := "";
      isPlaying := true;
      playbackSpeed := 1.0;
      autoPlay := true;
      peerStatus := Peers(false, false);
      InitialConsistent();
    }

    /** `setCode` */
    method SetCode(c: string)
      modifies this
      ensures code == c && State() == old(State())
    {
      code := c;
    }

    /** `connect`: nothing unless `canJoin`; otherwise the status becomes
        `connecting` and the join frame is what the new socket sends once open. */
    method Connect() returns (join: Option<Json>)
      modifies this
      ensures !CanJoin(old(code)) ==> join == None && unchanged(this)
      ensures CanJoin(old(code)) ==> join == Some(ClientJoinFrame(code)) && State() == old(State()).(status := Connecting) && code == old(code)
      ensures Valid() <==> old(Valid())
    {
      if !CanJoin(code) {
        return None;
      }
      status := Connecting;
      join := Some(ClientJoinFrame(code));
    }

    /** `ws.onmessage`: the setter calls for one frame. */
    method OnMessage(frame: Frame)
      requires Valid()
      modifies this
      ensures Valid()
      ensures State() == Receive(old(State()), frame) && code == old(code)
    {
      if frame.Garbled? {
        return;
      }
      var msg := frame.value;
      if HasType(msg, "joined") {
        status := Joined;
      } else if HasType(msg, "play") && StringField(msg, "url").Some? {
        var url := StringField(msg, "url").value;
        videoUrl := url;
        var id := ExtractYouTubeVideoId(url);
        videoId := id.GetOr("");
        autoPlay := true;
      } else if HasType(msg, "control") {
        var action := Get(msg, "action");
        if action == Some(JString("pause")) {
          isPlaying := false;
        } else if action == Some(JString("resume")) {
          isPlaying := true;
        } else if action == Some(JString("speed")) && NumberField(msg, "speed").Some? {
          playbackSpeed := ClampSpeed(NumberField(msg, "speed").value);
        } else if action == Some(JString("stop")) {
          isPlaying := false;
          autoPlay := false;
        }
      } else if HasType(msg, "peer_status") {
        peerStatus := Peers(Truthy(Get(msg, "clientPresent")), Truthy(Get(msg, "controlPresent")));
      } else if HasType(msg, "error") {
        status := Failed;
      }
    }
  }
}
