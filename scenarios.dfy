/** Runs of several handlers in a row, each stating what the sequence emits
    and leaves behind. They pin down behaviour of the handlers as written:
    ids handed out from 1004 on, no call-ended notice when a peer leaves, a
    second login taking over an id, stale entries after a re-login. */
module Scenarios {
  import opened Decimal
  import opened Registry
  import opened Signaling

  /** The first account registered after start-up gets id "1004". */
  method FirstRegistration(name: string, email: string, password: string) returns (reply: RegisterReply)
    requires !EmailTaken(SeedUsers, email)
    ensures reply == Registered("1004", name)
    ensures reply.Status() == 200 && reply.Success()
    ensures reply.Text() == "Registration successful. Use this ID to log in."
  {
    var s := new Server();
    FourDigitIdValue("1004", 4);
    ShowOfValue("1004");
    reply := s.Register(name, email, password);
  }

  /** Registering the same email again is refused and changes nothing. */
  method RegisterTwice(s: Server, name: string, email: string, password: string, password2: string)
    returns (first: RegisterReply, again: RegisterReply)
    requires s.Valid() && !EmailTaken(s.userDb, email)
    modifies s
    ensures s.Valid()
    ensures first == Registered(Show(old(s.nextUserId)), name)
    ensures again == EmailConflict && again.Status() == 409 && !again.Success()
    ensures again.Text() == "Email already registered."
    ensures s.userDb == old(s.userDb)[first.fixedUserId := User(first.fixedUserId, name, email, password)]
    ensures s.nextUserId == old(s.nextUserId) + 1
  {
    first := s.Register(name, email, password);
    assert EmailTaken(s.userDb, email) by {
      assert s.userDb[first.fixedUserId] in s.userDb.Values;
    }
    again := s.Register(name, email, password2);
  }

  /** `a` (on socket `c1`) calls `b` (on socket `c2`), sends an offer, and
      `b` leaves. The only message that follows the departure is the new
      online list, which `c1` receives without `b`: nothing tells `a` that
      the call ended. */
  method CallThenLeave(s: Server, c1: SocketId, c2: SocketId, a: string, b: string, offerBlob: string)
    returns (hello: seq<Message>, ring: seq<Message>, offer: seq<Message>, left: seq<Message>)
    requires s.Valid() && c1 in s.connected && c2 in s.connected && c1 != c2
    requires a in s.userDb && b in s.userDb && a != b
    modifies s
    ensures s.Valid()
    ensures |hello| == 2 && hello[0].to == ToSocket(c1) && hello[0].event.Name() == "login_success"
    ensures hello[1].event.Name() == "update_user_list"
    ensures ring == [Message(ToSocket(c2), IncomingCall(a, CallerName(s.userDb, a)))]
    ensures offer == [Message(ToSocket(c2), Relay(a, offerBlob))]
    ensures ring[0].event.Name() == "incoming_call" && offer[0].event.Name() == "signal"
    ensures |left| == 1 && left[0].event.UpdateUserList? && left[0].event.Name() == "update_user_list"
    ensures left[0].to == ToAll(s.connected) && c1 in s.connected && c2 !in s.connected
    ensures a in s.userDb && Entry(a, s.userDb[a].name) in left[0].event.users
    ensures forall e :: e in left[0].event.users ==> e.id != b
  {
    hello := s.Login(c1, a);
    var _ := s.Login(c2, b);
    ring := s.CallRequest(c1, b);
    offer := s.Signal(c1, SignalData(a, b, offerBlob));
    left := s.Disconnect(c2);
    SnapshotMembers(s.activeUsers, s.userDb);
  }

  /** Two sockets log in as `id`; when the first leaves, `id` drops out of
      the registry although the second socket is still connected and bound
      to it, so calls to `id` are rejected as offline. */
  method Takeover(s: Server, c1: SocketId, c2: SocketId, c3: SocketId, id: string, caller: string)
    returns (call: seq<Message>)
    requires s.Valid() && c1 in s.connected && c2 in s.connected && c3 in s.connected
    requires c1 != c2 && c2 != c3 && c1 != c3
    requires id in s.userDb && caller in s.userDb
    modifies s
    ensures s.Valid()
    ensures c2 in s.connected && c2 in s.binding && s.binding[c2] == id
    ensures id !in s.activeUsers
    ensures call == [Message(ToSocket(c3), CallRejected(id + OfflineSuffix))]
    ensures call[0].event.Name() == "call_rejected"
  {
    var _ := s.Login(c1, id);
    var _ := s.Login(c2, id);
    var _ := s.Login(c3, caller);
    var _ := s.Disconnect(c1);
    call := s.CallRequest(c3, id);
  }

  /** A socket logs in as `a`, then as `b`, then leaves: only `b` is
      removed, so `a` stays registered on the closed socket and a call to
      `a` is addressed to it. */
  method StaleEntry(s: Server, c: SocketId, c2: SocketId, a: string, b: string, caller: string)
    returns (call: seq<Message>)
    requires s.Valid() && c in s.connected && c2 in s.connected && c != c2
    requires a in s.userDb && b in s.userDb && caller in s.userDb && a != b && caller != a
    modifies s
    ensures s.Valid()
    ensures c !in s.connected && c in s.everConnected && a in s.activeUsers && s.activeUsers[a] == c
    ensures call == [Message(ToSocket(c), IncomingCall(caller, CallerName(s.userDb, caller)))]
  {
    var _ := s.Login(c, a);
    var _ := s.Login(c, b);
    assert s.activeUsers[a] == c && s.binding[c] == b;
    var _ := s.Disconnect(c);
    assert s.activeUsers[a] == c;
    var _ := s.Login(c2, caller);
    call := s.CallRequest(c2, a);
  }

  /** A socket whose login failed is still not logged in, and its call
      request reaches nobody but itself. */
  method UnknownIdCall(s: Server, c: SocketId, id: string, callee: string)
    returns (login: seq<Message>, call: seq<Message>)
    requires s.Valid() && c in s.connected && c !in s.binding && id !in s.userDb
    modifies s
    ensures s.Valid()
    ensures login == [Message(ToSocket(c), LoginError(InvalidId))]
    ensures call == [Message(ToSocket(c), Error(NotLoggedIn))]
    ensures login[0].event.Name() == "login_error" && call[0].event.Name() == "error"
  {
    login := s.Login(c, id);
    call := s.CallRequest(c, callee);
  }
}
