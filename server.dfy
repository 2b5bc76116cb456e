/** The signaling server: the `/register` route, the `io` handler
    `connection` and the socket handlers `login_user_id`, `call_request`,
    `signal` and `disconnect`, each run to completion on one shared
    in-memory state. Every handler returns the messages it emits instead of
    sending them. */
module Signaling {
  import opened Decimal
  import opened Registry

  /** Where a message goes: one socket (`socket.emit`, `io.to(id).emit`) or
      every socket connected at the time of the call (`io.emit`). */
  datatype Target = ToSocket(socket: SocketId) | ToAll(sockets: set<SocketId>)

  /** An outgoing socket.io event and its payload. */
  datatype Event =
    | LoginSuccess(user: User)
    | LoginError(reason: string)
    | UpdateUserList(users: set<Entry>)
    | IncomingCall(callerId: string, callerName: string)
    | CallRejected(reason: string)
    | Error(reason: string)
    | Relay(senderId: string, signal: string)
  {
    /** The event name the client listens for. */
    function Name(): string {
      match this
      case LoginSuccess(_) => "login_success"
      case LoginError(_) => "login_error"
      case UpdateUserList(_) => "update_user_list"
      case IncomingCall(_, _) => "incoming_call"
      case CallRejected(_) => "call_rejected"
      case Error(_) => "error"
      case Relay(_, _) => "signal"
    }
  }

  datatype Message = Message(to: Target, event: Event)

  /** The client-supplied body of a `signal` event; `signal` is opaque. */
  datatype SignalData = SignalData(senderId: string, recipientId: string, signal: string)

  /** The JSON reply of the `/register` route. */
  datatype RegisterReply = Registered(fixedUserId: string, name: string) | EmailConflict {
    function Status(): nat {
      if Registered? then 200 else 409
    }

    function Success(): bool {
      Registered?
    }

    function Text(): string {
      if Registered? then "Registration successful. Use this ID to log in."
      else "Email already registered."
    }
  }

  const InvalidId: string := "Invalid Fixed User ID"
  const NotLoggedIn: string := "Please log in first."
  const OfflineSuffix: string := " is currently offline."

  class Server {
    /** `USER_DB`: fixed user id to account. */
    var userDb: map<string, User>
    /** `nextUserId`: the counter new ids are taken from. */
    var nextUserId: nat
    /** `activeUsers`: fixed user id to the socket it last logged in from. */
    var activeUsers: map<string, SocketId>
    /** `socket.fixedUserId` of every socket that has logged in. */
    var binding: map<SocketId, string>
    /** The sockets `io.emit` reaches. */
    var connected: set<SocketId>
    /** Every socket id the transport has ever handed over; socket.io never
        issues one twice, so a closed socket cannot come back. */
    ghost var everConnected: set<SocketId>

    /** What holds between handler runs. */
    ghost predicate Valid()
      reads this
    {
      DirectoryValid(userDb, nextUserId)
      && activeUsers.Keys <= userDb.Keys
      && binding.Keys <= connected
      && binding.Values <= userDb.Keys
      && connected <= everConnected
    }

    /** The online list as `Object.keys(activeUsers).map(...)` builds it. */
    function OnlineList(): set<Entry>
      requires Valid()
      reads this
    {
      Snapshot(activeUsers, userDb)
    }

    /** Start-up state: the three seeded accounts, counter at 1004,
        nobody connected. */
    constructor ()
      ensures Valid()
      ensures userDb == SeedUsers && nextUserId == FirstFreeId
      ensures activeUsers == map[] && binding == map[] && connected == {} && everConnected == {}
    {
      userDb := SeedUsers;
      nextUserId := FirstFreeId;
      activeUsers := map[];
      binding := map[];
      connected := {};
      everConnected := {};
      SeedsValid();
    }

    /** `POST /register`. */
    method Register(name: string, email: string, password: string) returns (reply: RegisterReply)
      requires Valid()
      modifies this
      ensures Valid()
      ensures activeUsers == old(activeUsers) && binding == old(binding)
      ensures connected == old(connected) && everConnected == old(everConnected)
      ensures EmailTaken(old(userDb), email) ==>
        reply == EmailConflict && userDb == old(userDb) && nextUserId == old(nextUserId)
      ensures !EmailTaken(old(userDb), email) ==>
        var id := Show(old(nextUserId));
        && id !in old(userDb)
        && reply == Registered(id, name)
        && userDb == old(userDb)[id := User(id, name, email, password)]
        && nextUserId == old(nextUserId) + 1
    {
      if EmailTaken(userDb, email) {
        return EmailConflict;
      }
      var newId := Show(nextUserId);
      AddUserKeepsValid(userDb, nextUserId, name, email, password);
      nextUserId := nextUserId + 1;
      userDb := userDb[newId := User(newId, name, email, password)];
      reply := Registered(newId, name);
    }

    /** `io.on('connection')`: the transport hands over a socket id it has
        never issued before. */
    method Connect(sid: SocketId)
      requires Valid()
      requires sid !in everConnected
      modifies this
      ensures Valid()
      ensures sid !in old(connected)
      ensures connected == old(connected) + {sid}
      ensures everConnected == old(everConnected) + {sid}
      ensures userDb == old(userDb) && nextUserId == old(nextUserId)
      ensures activeUsers == old(activeUsers) && binding == old(binding)
    {
      connected := connected + {sid};
      everConnected := everConnected + {sid};
    }

    /** `login_user_id`. */
    method Login(sid: SocketId, id: string) returns (out: seq<Message>)
      requires Valid()
      requires sid in connected
      modifies this
      ensures Valid()
      ensures userDb == old(userDb) && nextUserId == old(nextUserId)
      ensures connected == old(connected) && everConnected == old(everConnected)
      ensures id !in old(userDb) ==>
        && activeUsers == old(activeUsers)
        && binding == old(binding)
        && out == [Message(ToSocket(sid), LoginError(InvalidId))]
      ensures id in old(userDb) ==>
        && activeUsers == old(activeUsers)[id := sid]
        && binding == old(binding)[sid := id]
        && out == [Message(ToSocket(sid), LoginSuccess(userDb[id])),
                   Message(ToAll(connected), UpdateUserList(OnlineList()))]
        && Entry(id, userDb[id].name) in OnlineList()
    {
      if id in userDb {
        activeUsers := activeUsers[id := sid];
        binding := binding[sid := id];
        var list := OnlineList();
        SnapshotMembers(activeUsers, userDb);
        out := [Message(ToSocket(sid), LoginSuccess(userDb[id])),
                Message(ToAll(connected), UpdateUserList(list))];
      } else {
        out := [Message(ToSocket(sid), LoginError(InvalidId))];
      }
    }

    /** `call_request`: never changes any state. */
    method CallRequest(sid: SocketId, calleeId: string) returns (out: seq<Message>)
      requires Valid()
      requires sid in connected
      ensures sid !in binding ==> out == [Message(ToSocket(sid), Error(NotLoggedIn))]
      ensures sid in binding && calleeId in activeUsers ==>
        out == [Message(ToSocket(activeUsers[calleeId]),
                        IncomingCall(binding[sid], CallerName(userDb, binding[sid])))]
      ensures sid in binding && calleeId !in activeUsers ==>
        out == [Message(ToSocket(sid), CallRejected(calleeId + OfflineSuffix))]
    {
      var callerId := if sid in binding then binding[sid] else "";
      var callerName := CallerName(userDb, callerId);
      EmptyIdUnused(userDb, nextUserId);
      assert sid in binding ==> binding[sid] in binding.Values;
      if callerId == "" {
        return [Message(ToSocket(sid), Error(NotLoggedIn))];
      }
      if calleeId in activeUsers {
        out := [Message(ToSocket(activeUsers[calleeId]), IncomingCall(callerId, callerName))];
      } else {
        out := [Message(ToSocket(sid), CallRejected(calleeId + OfflineSuffix))];
      }
    }

    /** `signal`: relays the client's fields unchanged; the sender need not
        be logged in, and nothing changes. */
    method Signal(sid: SocketId, data: SignalData) returns (out: seq<Message>)
      requires Valid()
      requires sid in connected
      ensures data.recipientId in activeUsers ==>
        out == [Message(ToSocket(activeUsers[data.recipientId]), Relay(data.senderId, data.signal))]
      ensures data.recipientId !in activeUsers ==> out == []
    {
      if data.recipientId in activeUsers {
        var calleeSocketId := activeUsers[data.recipientId];
        out := [Message(ToSocket(calleeSocketId), Relay(data.senderId, data.signal))];
      } else {
        out := [];
      }
    }

    /** `disconnect`: the socket leaves; if it had logged in, its id leaves
        `activeUsers` whichever socket that entry pointed to. */
    method Disconnect(sid: SocketId) returns (out: seq<Message>)
      requires Valid()
      requires sid in connected
      modifies this
      ensures Valid()
      ensures connected == old(connected) - {sid} && everConnected == old(everConnected)
      ensures binding == old(binding) - {sid}
      ensures userDb == old(userDb) && nextUserId == old(nextUserId)
      ensures sid in old(binding) ==>
        && activeUsers == old(activeUsers) - {old(binding)[sid]}
        && out == [Message(ToAll(connected), UpdateUserList(OnlineList()))]
        && forall e :: e in OnlineList() ==> e.id != old(binding)[sid]
      ensures sid !in old(binding) ==> activeUsers == old(activeUsers) && out == []
    {
      var fixedUserId := if sid in binding then binding[sid] else "";
      EmptyIdUnused(userDb, nextUserId);
      assert sid in binding ==> binding[sid] in binding.Values;
      connected := connected - {sid};
      binding := binding - {sid};
      assert binding.Values <= old(binding).Values;
      if fixedUserId != "" {
        activeUsers := activeUsers - {fixedUserId};
        var list := OnlineList();
        SnapshotMembers(activeUsers, userDb);
        out := [Message(ToAll(connected), UpdateUserList(list))];
      } else {
        out := [];
      }
    }
  }
}
