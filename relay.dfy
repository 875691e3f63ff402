/** The pairing and relay server: a table from six-digit pairing code to room,
    each room holding at most one `client` and one `control` connection, and
    the per-connection handlers for incoming frames and for the close event.
    Each handler returns, in order, the messages it sends. */
module RelayServer {
  import opened Wrappers
  import opened JsonValues
  import opened Protocol

  /** `'client' | 'control'` */
  datatype Role = Client | Control

  function RoleName(r: Role): string {
    match r
    case Client => "client"
    case Control => "control"
  }

  function Other(r: Role): Role {
    match r
    case Client => Control
    case Control => Client
  }

  /** One accepted connection. `open` is the transport's `readyState === OPEN`;
      `joinedCode` and `role` are the handler's own variables, `null` until a
      join succeeds. */
  class Connection {
    var open: bool
    var joinedCode: Option<string>
    var role: Option<Role>

    /** A connection as the server's `connection` event hands it over. */
    constructor ()
      ensures open && joinedCode == None && role == None
    {
      open := true;
      joinedCode := None;
      role := None;
    }
  }

  /** The connections a slot holds: none or one. */
  function Held(slot: Option<Connection>): set<Connection> {
    if slot.Some? then {slot.value} else {}
  }

  /** `!!slot && slot.readyState === WebSocket.OPEN` */
  predicate IsOpen(slot: Option<Connection>)
    reads Held(slot)
  {
    slot.Some? && slot.value.open
  }

  /** A room: the `client` and `control` slots of one pairing code. */
  datatype Room = Room(client: Option<Connection>, control: Option<Connection>) {

    function Slot(r: Role): Option<Connection> {
      match r
      case Client => client
      case Control => control
    }

    /** The room with slot `r` set to `c` (`room[r] = ws`, or `delete room[r]` for `None`). */
    function Put(r: Role, c: Option<Connection>): (room: Room)
      ensures room.Slot(r) == c && room.Slot(Other(r)) == Slot(Other(r))
    {
      match r
      case Client => this.(client := c)
      case Control => this.(control := c)
    }

    predicate IsEmpty() {
      client.None? && control.None?
    }

    function Members(): set<Connection> {
      Held(client) + Held(control)
    }
  }

  /** The room a code has when the table has none (`|| {}`). */
  const Vacant := Room(None, None)

  /** The table's invariant: every key is a pairing code, and no room is empty. */
  ghost predicate TableInvariant(rooms: map<string, Room>) {
    forall code | code in rooms :: SixDigits(code) && !rooms[code].IsEmpty()
  }

  /** `room[role] = ws; rooms.set(code, room)` on a valid join. */
  function Occupy(rooms: map<string, Room>, code: string, role: Role, ws: Connection): (r: map<string, Room>)
    ensures r.Keys == rooms.Keys + {code}
    ensures r[code].Slot(role) == Some(ws)
    ensures r[code].Slot(Other(role)) == (if code in rooms then rooms[code].Slot(Other(role)) else None)
    ensures forall c | c in rooms && c != code :: r[c] == rooms[c]
    ensures TableInvariant(rooms) && SixDigits(code) ==> TableInvariant(r)
  {
    var room := if code in rooms then rooms[code] else Vacant;
    rooms[code := room.Put(role, Some(ws))]
  }

  /** What the close handler does to the table once it has found the room:
      free the slot only if it still holds the closing connection, then drop
      the room if nobody is left in it. */
  function Vacate(rooms: map<string, Room>, code: string, role: Role, ws: Connection): (r: map<string, Room>)
    requires code in rooms
    ensures r.Keys <= rooms.Keys
    ensures forall c | c in rooms && c != code :: c in r && r[c] == rooms[c]
    // a slot changes only by being freed, and only the closing connection's slot
    ensures forall x: Role | code in r ::
      r[code].Slot(x) == rooms[code].Slot(x) || (x == role && rooms[code].Slot(x) == Some(ws) && r[code].Slot(x) == None)
    // the closing connection no longer holds its slot
    ensures rooms[code].Slot(role) == Some(ws) ==> code !in r || r[code].Slot(role) == None
    // a replacement is never evicted by the connection it pre-empted
    ensures rooms[code].Slot(role) != Some(ws) && !rooms[code].IsEmpty() ==> code in r && r[code] == rooms[code]
    // the room goes exactly when no slot is left filled
    ensures code !in r <==> rooms[code].Slot(Other(role)) == None && (rooms[code].Slot(role) == None || rooms[code].Slot(role) == Some(ws))
    ensures TableInvariant(rooms) ==> TableInvariant(r)
  {
    var room := rooms[code];
    var left := if room.Slot(role) == Some(ws) then room.Put(role, None) else room;
    if left.IsEmpty() then rooms - {code} else rooms[code := left]
  }

  /** Error conditions reported to a sender. */
  datatype ErrorCode = InvalidJoin | NotJoined | ClientNotConnected

  function ErrorName(e: ErrorCode): string {
    match e
    case InvalidJoin => "INVALID_JOIN"
    case NotJoined => "NOT_JOINED"
    case ClientNotConnected => "CLIENT_NOT_CONNECTED"
  }

  /** Playback actions relayed to the client. */
  datatype Action = Pause | Resume | Speed(speed: real) | Stop | Seek(seconds: real) | Next | Previous

  /** Commands a joined connection may send. */
  datatype Command = PlayUrl(url: Option<Json>) | Act(action: Action)

  /** An incoming message, classified by its `type` and the type checks the handler makes. */
  datatype Inbound =
    | Join(code: Option<Json>, role: Option<Json>)
    | Cmd(cmd: Command)
    | Unhandled   // any other type, or `speed`/`seek` without a number

  /** Messages the server sends. */
  datatype Outbound =
    | Joined(code: string, role: Role)
    | Error(error: ErrorCode)
    | PeerStatus(clientPresent: bool, controlPresent: bool)
    | Play(url: Option<Json>)
    | ControlMsg(action: Action)
    | AckPlay
    | Ack(action: Action)

  /** One send: `to.send(JSON.stringify(msg))`. */
  datatype Send = Send(to: Connection, msg: Outbound)

  /** The `action` string of each action, which is also the `type` the controller sends for it. */
  function ActionName(a: Action): string {
    match a
    case Pause => "pause"
    case Resume => "resume"
    case Speed(_) => "speed"
    case Stop => "stop"
    case Seek(_) => "seek"
    case Next => "next"
    case Previous => "previous"
  }

  /** The `type` of a command message. */
  function TypeName(c: Command): string {
    match c
    case PlayUrl(_) => "play"
    case Act(a) => ActionName(a)
  }

  /** The `type` values the message handler has a branch for. */
  const KnownTypes: set<Option<Json>> := {
    Some(JString("join")), Some(JString("play")), Some(JString("pause")), Some(JString("resume")), Some(JString("speed")),
    Some(JString("stop")), Some(JString("seek")), Some(JString("next")), Some(JString("previous"))}

  /** The dispatch on `msg?.type` and the field type checks of the message handler. */
  function Parse(v: Json): (r: Inbound)
    ensures r.Join? <==> HasType(v, "join")
    ensures r.Join? ==> r.code == Get(v, "code") && r.role == Get(v, "role")
    ensures r.Cmd? ==> HasType(v, TypeName(r.cmd))
    ensures r.Cmd? && r.cmd.PlayUrl? ==> r.cmd.url == Get(v, "url")
    ensures r.Cmd? && r.cmd.Act? && r.cmd.action.Speed? ==> NumberField(v, "speed") == Some(r.cmd.action.speed)
    ensures r.Cmd? && r.cmd.Act? && r.cmd.action.Seek? ==> NumberField(v, "seconds") == Some(r.cmd.action.seconds)
    ensures r.Unhandled? <==>
      || Get(v, "type") !in KnownTypes
      || (HasType(v, "speed") && NumberField(v, "speed").None?)
      || (HasType(v, "seek") && NumberField(v, "seconds").None?)
  {
    if HasType(v, "join") then Join(Get(v, "code"), Get(v, "role"))
    else if HasType(v, "play") then Cmd(PlayUrl(Get(v, "url")))
    else if HasType(v, "pause") then Cmd(Act(Pause))
    else if HasType(v, "resume") then Cmd(Act(Resume))
    else if HasType(v, "speed") && NumberField(v, "speed").Some? then Cmd(Act(Speed(NumberField(v, "speed").value)))
    else if HasType(v, "stop") then Cmd(Act(Stop))
    else if HasType(v, "seek") && NumberField(v, "seconds").Some? then Cmd(Act(Seek(NumberField(v, "seconds").value)))
    else if HasType(v, "next") then Cmd(Act(Next))
    else if HasType(v, "previous") then Cmd(Act(Previous))
    else Unhandled
  }

  /** `isSixDigit(code)` for a value of any JSON type. */
  function IsSixDigit(code: Option<Json>): (b: bool)
    ensures b <==> (code.Some? && code.value.JString? && |code.value.s| == 6
                    && forall i | 0 <= i < 6 :: IsAsciiDigit(code.value.s[i]))
  {
    code.Some? && code.value.JString? && SixDigits(code.value.s)
  }

  /** The join validation: the code and role of a join that is accepted. */
  function JoinRequest(code: Option<Json>, role: Option<Json>): (r: Option<(string, Role)>)
    ensures r.Some? <==> IsSixDigit(code) && (role == Some(JString("client")) || role == Some(JString("control")))
    ensures r.Some? ==> code == Some(JString(r.value.0)) && SixDigits(r.value.0) && role == Some(JString(RoleName(r.value.1)))
  {
    if !IsSixDigit(code) then None
    else if role == Some(JString("client")) then Some((code.value.s, Client))
    else if role == Some(JString("control")) then Some((code.value.s, Control))
    else None
  }

  /** The action as relayed: a speed is clamped, everything else passes unchanged. */
  function Relayed(a: Action): (b: Action)
    ensures b.Speed? <==> a.Speed?
    ensures a.Speed? ==> 0.25 <= b.speed <= 2.0 && b.speed == Max(0.25, Min(2.0, a.speed))
    ensures a.Speed? && 0.25 <= a.speed <= 2.0 ==> b == a
    ensures !a.Speed? ==> b == a
  {
    if a.Speed? then Speed(ClampSpeed(a.speed)) else a
  }

  /** The message forwarded to the room's client. */
  function Forward(c: Command): (o: Outbound)
    ensures c.PlayUrl? ==> o.Play? && o.url == c.url
    ensures c.Act? ==> o == ControlMsg(Relayed(c.action))
    ensures c.Act? && c.action.Speed? ==> o.action.speed == ClampSpeed(c.action.speed)
  {
    match c
    case PlayUrl(u) => Play(u)
    case Act(a) => ControlMsg(Relayed(a))
  }

  /** The acknowledgement to the sender: it echoes what was forwarded. */
  function AckFor(c: Command): (o: Outbound)
    ensures c.PlayUrl? ==> o == AckPlay
    ensures c.Act? ==> o.Ack? && Forward(c) == ControlMsg(o.action)
  {
    match c
    case PlayUrl(_) => AckPlay
    case Act(a) => Ack(Relayed(a))
  }

  /** The JSON object the server builds for each outgoing message. */
  function Wire(o: Outbound): (v: Json)
    ensures v.JObject? && HasType(v, Kind(o))
    ensures o.Joined? ==> Get(v, "code") == Some(JString(o.code)) && Get(v, "role") == Some(JString(RoleName(o.role)))
    ensures o.Error? ==> Get(v, "error") == Some(JString(ErrorName(o.error)))
    ensures o.PeerStatus? ==>
      Get(v, "clientPresent") == Some(JBool(o.clientPresent)) && Get(v, "controlPresent") == Some(JBool(o.controlPresent))
    ensures o.Play? ==> Get(v, "url") == o.url
    ensures o.AckPlay? ==> Get(v, "action") == Some(JString("play"))
    ensures o.ControlMsg? || o.Ack? ==> Get(v, "action") == Some(JString(ActionName(o.action)))
    ensures (o.ControlMsg? || o.Ack?) && o.action.Speed? ==> NumberField(v, "speed") == Some(o.action.speed)
    ensures (o.ControlMsg? || o.Ack?) && o.action.Seek? ==> NumberField(v, "seconds") == Some(o.action.seconds)
    ensures v.fields.Keys == FieldNames(o)
  {
    match o
    case Joined(code, role) => JObject(map["type" := JString("joined"), "code" := JString(code), "role" := JString(RoleName(role))])
    case Error(e) => JObject(map["type" := JString("error"), "error" := JString(ErrorName(e))])
    case PeerStatus(c, p) => JObject(map["type" := JString("peer_status"), "clientPresent" := JBool(c), "controlPresent" := JBool(p)])
    case Play(u) => JObject(map["type" := JString("play")] + Entry("url", u))
    case ControlMsg(a) => JObject(map["type" := JString("control")] + ActionFields(a))
    case AckPlay => JObject(map["type" := JString("ack"), "action" := JString("play")])
    case Ack(a) => JObject(map["type" := JString("ack")] + ActionFields(a))
  }

  /** The properties of each message the server sends, and no others. */
  function FieldNames(o: Outbound): set<string> {
    match o
    case Joined(_, _) => {"type", "code", "role"}
    case Error(_) => {"type", "error"}
    case PeerStatus(_, _) => {"type", "clientPresent", "controlPresent"}
    case Play(u) => if u.Some? then {"type", "url"} else {"type"}
    case AckPlay => {"type", "action"}
    case ControlMsg(a) => {"type"} + ActionFieldNames(a)
    case Ack(a) => {"type"} + ActionFieldNames(a)
  }

  /** `action`, with `speed` or `seconds` for the actions that carry a number. */
  function ActionFieldNames(a: Action): set<string> {
    if a.Speed? then {"action", "speed"} else if a.Seek? then {"action", "seconds"} else {"action"}
  }

  /** The `type` of each message the server sends. */
  function Kind(o: Outbound): string {
    match o
    case Joined(_, _) => "joined"
    case Error(_) => "error"
    case PeerStatus(_, _) => "peer_status"
    case Play(_) => "play"
    case ControlMsg(_) => "control"
    case AckPlay => "ack"
    case Ack(_) => "ack"
  }

  /** `action` and, for `speed` and `seek`, the number that goes with it. */
  function ActionFields(a: Action): map<string, Json> {
    match a
    case Pause => map["action" := JString("pause")]
    case Resume => map["action" := JString("resume")]
    case Speed(x) => map["action" := JString("speed"), "speed" := JNumber(x)]
    case Stop => map["action" := JString("stop")]
    case Seek(x) => map["action" := JString("seek"), "seconds" := JNumber(x)]
    case Next => map["action" := JString("next")]
    case Previous => map["action" := JString("previous")]
  }

  /** The frame both apps send to join: `{ type: 'join', role, code }`. */
  function JoinFrame(code: string, role: Role): (v: Json)
    ensures Parse(v) == Join(Some(JString(code)), Some(JString(RoleName(role))))
    ensures JoinRequest(Parse(v).code, Parse(v).role) == (if SixDigits(code) then Some((code, role)) else None)
  {
    JObject(map["type" := JString("join"), "role" := JString(RoleName(role)), "code" := JString(code)])
  }

  /** The frames the controller app sends for each command. */
  function CommandFrame(c: Command): (v: Json)
    ensures Parse(v) == Cmd(c)
  {
    match c
    case PlayUrl(u) => JObject(map["type" := JString("play")] + Entry("url", u))
    case Act(Pause) => JObject(map["type" := JString("pause")])
    case Act(Resume) => JObject(map["type" := JString("resume")])
    case Act(Speed(x)) => JObject(map["type" := JString("speed"), "speed" := JNumber(x)])
    case Act(Stop) => JObject(map["type" := JString("stop")])
    case Act(Seek(x)) => JObject(map["type" := JString("seek"), "seconds" := JNumber(x)])
    case Act(Next) => JObject(map["type" := JString("next")])
    case Act(Previous) => JObject(map["type" := JString("previous")])
  }

  /** The server's shared state: the `rooms` map. */
  class Relay {
    var rooms: map<string, Room>

    ghost predicate Valid()
      reads this
    {
      TableInvariant(rooms)
    }

    constructor ()
      ensures Valid() && rooms == map[]
    {
      rooms := map[];
    }

    function RoomOf(code: string): Room
      reads this
    {
      if code in rooms then rooms[code] else Vacant
    }

    function Members(code: string): set<Connection>
      reads this
    {
      RoomOf(code).Members()
    }

    /** The `peer_status` payload of `broadcastPeerStatus(code)`, recomputed from the slots. */
    function Status(code: string): (o: Outbound)
      reads this, Members(code)
      ensures o.PeerStatus?
      ensures o.clientPresent <==> RoomOf(code).client.Some? && RoomOf(code).client.value.open
      ensures o.controlPresent <==> RoomOf(code).control.Some? && RoomOf(code).control.value.open
    {
      PeerStatus(IsOpen(RoomOf(code).client), IsOpen(RoomOf(code).control))
    }

    /** The sends of `broadcastPeerStatus(code)`: the room's status to each filled
        slot of that room, the client first; nothing when there is no room. */
    function Presence(code: string): (out: seq<Send>)
      reads this, Members(code)
      ensures code !in rooms ==> out == []
      ensures |out| == (if RoomOf(code).client.Some? then 1 else 0) + (if RoomOf(code).control.Some? then 1 else 0)
      ensures forall i | 0 <= i < |out| :: out[i].msg == Status(code) && out[i].to in Members(code)
      ensures RoomOf(code).client.Some? ==> out[0].to == RoomOf(code).client.value
      ensures RoomOf(code).control.Some? ==> out[|out| - 1].to == RoomOf(code).control.value
    {
      if code !in rooms then []
      else
        var room := rooms[code];
        var payload := Status(code);
        (if room.client.Some? then [Send(room.client.value, payload)] else [])
        + (if room.control.Some? then [Send(room.control.value, payload)] else [])
    }

    /** A target is connected when the room's client slot is filled and open. */
    predicate ClientReady(code: string)
      reads this, Members(code)
    {
      code in rooms && IsOpen(rooms[code].client)
    }

    /** What the routing branches send for `cmd` from `ws`, joined under `code`. */
    ghost predicate Routed(ws: Connection, code: string, cmd: Command, out: seq<Send>)
      reads this, Members(code)
    {
      if code !in rooms then out == []
      else if ClientReady(code) then out == [Send(rooms[code].client.value, Forward(cmd)), Send(ws, AckFor(cmd))]
      else out == [Send(ws, Error(ClientNotConnected))]
    }

    /** The connection a valid join of `ws` to (`code`, `role`) closes: the
        slot's current holder, if it is another connection. */
    function Rival(ws: Connection, code: string, role: Role): set<Connection>
      reads this
    {
      var holder := RoomOf(code).Slot(role);
      if holder.Some? && holder.value != ws then {holder.value} else {}
    }

    /** The connections handling `frame` from `ws` may close. */
    function Preempted(ws: Connection, frame: Frame): set<Connection>
      reads this
    {
      if frame.Text? && Parse(frame.value).Join? then
        match JoinRequest(Parse(frame.value).code, Parse(frame.value).role)
        case Some((code, role)) => Rival(ws, code, role)
        case None => {}
      else {}
    }

    /** The `message` handler. */
    method OnMessage(ws: Connection, frame: Frame) returns (out: seq<Send>)
      requires Valid()
      modifies this, ws, Preempted(ws, frame)
      ensures Valid()
      ensures match frame
        case Garbled => out == [] && rooms == old(rooms) && unchanged(ws)
        case Text(v) =>
          match Parse(v)
          case Join(c, r) =>
            (match JoinRequest(c, r)
             case None => out == [Send(ws, Error(InvalidJoin))] && rooms == old(rooms) && unchanged(ws)
             case Some((code, role)) =>
               && ws.joinedCode == Some(code) && ws.role == Some(role) && ws.open == old(ws.open)
               && rooms == Occupy(old(rooms), code, role, ws)
               && (forall h | h in old(Rival(ws, code, role)) :: !h.open && h.joinedCode == old(h.joinedCode) && h.role == old(h.role))
               && out == [Send(ws, Joined(code, role))] + Presence(code))
          case Cmd(cmd) =>
            && rooms == old(rooms) && unchanged(ws)
            && (if old(ws.joinedCode).None? || old(ws.role).None? then out == [Send(ws, Error(NotJoined))]
                else Routed(ws, ws.joinedCode.value, cmd, out))
          case Unhandled =>
            && rooms == old(rooms) && unchanged(ws)
            && out == (if old(ws.joinedCode).None? || old(ws.role).None? then [Send(ws, Error(NotJoined))] else [])
    {
      if frame.Garbled? {
        return [];
      }
      var msg := Parse(frame.value);
      if msg.Join? {
        var request := JoinRequest(msg.code, msg.role);
        if request.None? {
          return [Send(ws, Error(InvalidJoin))];
        }
        out := Join(ws, request.value.0, request.value.1);
        return;
      }
      if ws.joinedCode.None? || ws.role.None? {
        return [Send(ws, Error(NotJoined))];
      }
      if msg.Unhandled? {
        return [];
      }
      out := Route(ws, msg.cmd);
    }

    /** A valid join: bind `ws`, close the slot's previous holder, take the
        slot, acknowledge, and broadcast presence. */
    method Join(ws: Connection, code: string, role: Role) returns (out: seq<Send>)
      requires Valid() && SixDigits(code)
      modifies this, ws, Rival(ws, code, role)
      ensures Valid()
      ensures ws.joinedCode == Some(code) && ws.role == Some(role) && ws.open == old(ws.open)
      ensures rooms == Occupy(old(rooms), code, role, ws)
      ensures forall h | h in old(Rival(ws, code, role)) :: !h.open && h.joinedCode == old(h.joinedCode) && h.role == old(h.role)
      ensures out == [Send(ws, Joined(code, role))] + Presence(code)
    {
      ws.joinedCode := Some(code);
      ws.role := Some(role);
      var room := RoomOf(code);
      var holder := room.Slot(role);
      if holder.Some? && holder.value != ws {
        holder.value.open := false;
      }
      rooms := rooms[code := room.Put(role, Some(ws))];
      out := [Send(ws, Joined(code, role))] + Presence(code);
    }

    /** The routing branches for a joined connection: forward to the room's
        client when it is open and acknowledge, else report CLIENT_NOT_CONNECTED;
        nothing when the room is gone. The table is only read. */
    method Route(ws: Connection, cmd: Command) returns (out: seq<Send>)
      requires ws.joinedCode.Some?
      ensures Routed(ws, ws.joinedCode.value, cmd, out)
      ensures forall i | 0 <= i < |out| :: out[i].to == ws || Some(out[i].to) == RoomOf(ws.joinedCode.value).client
      ensures forall i | 0 <= i < |out| :: out[i].to != ws ==> out[i].msg == Forward(cmd)
    {
      var code := ws.joinedCode.value;
      if code !in rooms {
        return [];
      }
      var target := rooms[code].client;
      if target.Some? && target.value.open {
        out := [Send(target.value, Forward(cmd)), Send(ws, AckFor(cmd))];
      } else {
        out := [Send(ws, Error(ClientNotConnected))];
      }
    }

    /** The `close` handler, run once the transport has closed `ws`. */
    method OnClose(ws: Connection) returns (out: seq<Send>)
      requires Valid()
      modifies this, ws
      ensures Valid()
      ensures !ws.open && ws.joinedCode == old(ws.joinedCode) && ws.role == old(ws.role)
      ensures match (old(ws.joinedCode), old(ws.role))
        case (Some(code), Some(role)) =>
          if code in old(rooms) then rooms == Vacate(old(rooms), code, role, ws) && out == Presence(code)
          else rooms == old(rooms) && out == []
        case _ => rooms == old(rooms) && out == []
    {
      ws.open := false;
      if ws.joinedCode.None? || ws.role.None? {
        return [];
      }
      var code, role := ws.joinedCode.value, ws.role.value;
      if code !in rooms {
        return [];
      }
      var room := rooms[code];
      if room.Slot(role) == Some(ws) {
        room := room.Put(role, None);
      }
      if room.IsEmpty() {
        rooms := rooms - {code};
      } else {
        rooms := rooms[code := room];
      }
      out := Presence(code);
    }
  }
}
