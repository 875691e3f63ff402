/** How the client app and the relay server fit together: the join frame the
    client sends is the one the server accepts, and each message the server
    relays has the effect the client's handler gives it. */
module Pairing {
  import opened Wrappers
  import opened JsonValues
  import opened Protocol
  import opened YouTube
  import RS = RelayServer
  import opened ClientContext

  /** The server accepts the client's join exactly when `canJoin` held, and
      binds it to the `client` role under the code typed. */
  lemma ClientJoinAccepted(code: string)
    ensures RS.Parse(ClientJoinFrame(code)) == RS.Join(Some(JString(code)), Some(JString("client")))
    ensures RS.JoinRequest(Some(JString(code)), Some(JString("client"))) == (if CanJoin(code) then Some((code, RS.Client)) else None)
  {
    assert ClientJoinFrame(code) == RS.JoinFrame(code, RS.Client);
  }

  /** What a relayed command does to the client's state. */
  function Applied(s: ClientState, c: RS.Command): ClientState {
    match c
    case PlayUrl(Some(JString(url))) => s.(videoUrl := url, videoId := ExtractYouTubeVideoId(url).GetOr(""), autoPlay := true)
    case PlayUrl(_) => s
    case Act(Pause) => s.(isPlaying := false)
    case Act(Resume) => s.(isPlaying := true)
    case Act(Speed(x)) => s.(playbackSpeed := ClampSpeed(x))
    case Act(Stop) => s.(isPlaying := false, autoPlay := false)
    case Act(_) => s   // `seek` dispatches a DOM event; `next` and `previous` are ignored
  }

  /** The client applies a forwarded command as `Applied` says: in particular
      a forwarded speed, already clamped by the server, is taken as it is. */
  lemma {:induction false} ForwardedCommandApplied(s: ClientState, c: RS.Command)
    ensures Receive(s, Text(RS.Wire(RS.Forward(c)))) == Applied(s, c)
    ensures c.Act? && c.action.Speed? ==> Receive(s, Text(RS.Wire(RS.Forward(c)))).playbackSpeed == RS.Relayed(c.action).speed
  {
    var v := RS.Wire(RS.Forward(c));
    match c
    case PlayUrl(u) =>
      assert HasType(v, "play") && Get(v, "url") == u;
    case Act(a) =>
      assert HasType(v, "control") && Get(v, "action") == Some(JString(RS.ActionName(a)));
      if a.Speed? {
        assert NumberField(v, "speed") == Some(ClampSpeed(a.speed));
      }
  }

  /** A presence broadcast sets the client's `peerStatus` to exactly what the server computed. */
  lemma PresenceApplied(s: ClientState, clientPresent: bool, controlPresent: bool)
    ensures Receive(s, Text(RS.Wire(RS.PeerStatus(clientPresent, controlPresent))))
      == s.(peerStatus := Peers(clientPresent, controlPresent))
  {
    var v := RS.Wire(RS.PeerStatus(clientPresent, controlPresent));
    assert HasType(v, "peer_status");
  }

  /** The acknowledgement of a join moves the client to `joined`; any error to `error`. */
  lemma StatusReplies(s: ClientState, code: string, e: RS.ErrorCode)
    ensures Receive(s, Text(RS.Wire(RS.Joined(code, RS.Client)))) == s.(status := Joined)
    ensures Receive(s, Text(RS.Wire(RS.Error(e)))) == s.(status := Failed)
  {
    assert HasType(RS.Wire(RS.Joined(code, RS.Client)), "joined");
    assert HasType(RS.Wire(RS.Error(e)), "error");
  }
}
