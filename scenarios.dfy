/** Runs of the relay server's handlers, one event after another, and what
    they guarantee: a reconnect replaces the stale connection for good, and the
    last connection to leave ends the session. */
module RelayScenarios {
  import opened Wrappers
  import opened JsonValues
  import opened Protocol
  import opened RelayServer

  /** `first` and then `second` join the same code and role, whether or not the
      room already exists; then the close event of `first`, which the second
      join closed, arrives. The slot ends up held by `second`, the room's other
      slot is as it was, and the reports after the second join and after the
      close are the same presence report, which counts `second` as present. */
  method ReconnectReplacesStale(relay: Relay, first: Connection, second: Connection, code: string, role: Role)
      returns (joinedFirst: seq<Send>, joinedSecond: seq<Send>, closedFirst: seq<Send>)
    requires relay.Valid() && SixDigits(code)
    requires first != second && first.open && second.open
    requires first !in relay.Members(code) && second !in relay.Members(code)
    modifies relay, first, second, Held(relay.RoomOf(code).Slot(role))
    ensures relay.Valid()
    ensures code in relay.rooms && relay.rooms[code].Slot(role) == Some(second)
    ensures relay.rooms[code].Slot(Other(role)) == old(relay.RoomOf(code).Slot(Other(role)))
    ensures !first.open && second.open
    ensures joinedSecond == [Send(second, Joined(code, role))] + closedFirst
    ensures closedFirst == relay.Presence(code)
    ensures (if role == Client then relay.Status(code).clientPresent else relay.Status(code).controlPresent)
    // into a code with no room yet, the report goes to `second` alone and counts only it
    ensures old(code !in relay.rooms) ==> closedFirst == [Send(second, PeerStatus(role == Client, role == Control))]
  {
    var other := relay.RoomOf(code).Slot(Other(role));
    joinedFirst := relay.OnMessage(first, Text(JoinFrame(code, role)));
    assert relay.rooms[code].Slot(role) == Some(first) && relay.rooms[code].Slot(Other(role)) == other;
    assert relay.Rival(second, code, role) == {first};
    joinedSecond := relay.OnMessage(second, Text(JoinFrame(code, role)));
    assert relay.rooms[code].Slot(role) == Some(second) && relay.rooms[code].Slot(Other(role)) == other;
    ghost var report := relay.Presence(code);
    assert first !in relay.Members(code);
    closedFirst := relay.OnClose(first);
    assert relay.rooms[code].Slot(role) == Some(second) && relay.rooms[code].Slot(Other(role)) == other;
    assert closedFirst == report;
  }

  /** A connection alone in its session leaves: the session is gone, and the
      next connection to join that code finds nobody else there. */
  method LastLeaveEndsSession(relay: Relay, alone: Connection, next: Connection, code: string, role: Role, nextRole: Role)
      returns (leaving: seq<Send>, rejoined: seq<Send>)
    requires relay.Valid() && SixDigits(code) && code !in relay.rooms
    requires alone != next && next.open
    modifies relay, alone, next
    ensures relay.Valid()
    ensures leaving == []
    ensures rejoined == [Send(next, Joined(code, nextRole)), Send(next, PeerStatus(nextRole == Client, nextRole == Control))]
    ensures code in relay.rooms && relay.rooms[code] == Vacant.Put(nextRole, Some(next))
  {
    var _ := relay.OnMessage(alone, Text(JoinFrame(code, role)));
    leaving := relay.OnClose(alone);
    assert code !in relay.rooms;
    rejoined := relay.OnMessage(next, Text(JoinFrame(code, nextRole)));
  }

  /** A connection that has not joined gets `NOT_JOINED` for a command and the
      table is untouched: nothing reaches any client. */
  method CommandBeforeJoin(relay: Relay, ws: Connection, c: Command) returns (out: seq<Send>)
    requires relay.Valid() && ws.joinedCode == None
    modifies relay, ws
    ensures out == [Send(ws, Error(NotJoined))]
    ensures relay.rooms == old(relay.rooms)
  {
    out := relay.OnMessage(ws, Text(CommandFrame(c)));
  }
}
