# Signaling server state machine

A Dafny model of the in-memory core of a small WebRTC signaling server. The
server keeps a user "database" (`USER_DB`) and an id counter
(`nextUserId`). It also keeps a presence registry (`activeUsers`, fixed user
id to socket) and a per-socket login binding (`socket.fixedUserId`).
It answers one HTTP route, `/register`, the `io` event `connection` (a new
socket arrives), and four events on each socket: `login_user_id`,
`call_request`, `signal` and `disconnect`.

Node runs each handler to completion, so each handler is one method of the
class `Signaling.Server`. Its fields are `userDb`, `nextUserId`,
`activeUsers`, `binding` and `connected`, plus the ghost set
`everConnected` of every socket id ever handed over. A handler returns the messages it
would emit instead of sending them. A message is a target and an event:
`ToSocket` for `socket.emit` and `io.to(id).emit`, and `ToAll` for `io.emit`,
which names the sockets connected at that moment.

Files:

- `decimal.dfy` (module `Decimal`): `String(n)` for the id counter (`Show`),
  the value of a decimal string (`Value`), and the round trips between them.
  Together they make `Show` injective.
- `registry.dfy` (module `Registry`): accounts, the seeded accounts, and the
  registered-email test. It also holds the directory invariant (ids keyed
  by themselves, every id below the counter, emails unique), the online-list
  snapshot and the caller-name fallback, with the lemmas about them.
- `server.dfy` (module `Signaling`): the message types and the `Server`
  class with one method per handler.
- `scenarios.dfy` (module `Scenarios`): handler sequences. Each states what
  the sequence emits and what state it leaves.

`Server.Valid()` holds between handler runs and every handler keeps it:

- the directory invariant holds, so emails are pairwise distinct and the
  counter's next id is never a key;
- every key of `activeUsers` is a registered id, so the name lookups in
  the online list are always defined;
- every bound socket is connected and bound to a registered id;
- every connected socket is among the ids ever handed over.

The handlers, as written, behave in ways a reader might not expect, and the
model keeps each of them:

- A second login for an id overwrites its `activeUsers` entry.
- `disconnect` deletes the entry for the socket's id even when that entry
  now points to another socket (`Scenarios.Takeover`).
- A socket that logs in twice under different ids leaves its first id
  registered on a closed socket after it disconnects
  (`Scenarios.StaleEntry`). So `activeUsers` values are NOT always
  connected sockets, and `Valid()` does not claim they are.
- `signal` relays the client-supplied `senderId` unchanged and does not
  require the sender to be logged in.
- No handler keeps per-call state. Nothing rejects a busy callee, and
  nothing tells the peer when the other side disconnects
  (`Scenarios.CallThenLeave`).

## Model

| member | source | states |
|---|---|---|
| `Decimal.Show` | server.js:37 | `String(n)` is a non-empty digit string with no leading zero; it starts with '0' exactly when n is 0 |
| `Decimal.ValueOfShow` | server.js:37 | reading back the decimal string of n gives n |
| `Decimal.ShowOfValue` | server.js:37 | every canonical decimal string is the `String` of its value |
| `Decimal.ShowInjective` | server.js:37 | distinct counter values give distinct ids, and equal ids come from equal values |
| `Registry.EmailTakenByKey` | server.js:32 | the `Object.values(...).some(...)` email test holds exactly when some stored key's account has that email |
| `Registry.SeedsValid` | server.js:14-19 | the three seeded accounts are keyed by their ids, all below the starting counter 1004, and have distinct emails |
| `Registry.FreshIdUnused` | server.js:37-46 | when every key is below the counter, the counter's decimal string is not a key, so line 46 never overwrites an account |
| `Registry.AddUserKeepsValid` | server.js:32-46 | storing a new account under the next id with an unregistered email keeps ids keyed, below the incremented counter, and emails unique |
| `Registry.EmptyIdUnused` | server.js:89 | the empty (falsy) string is never a registered id |
| `Registry.SnapshotMembers` | server.js:72-75 | the online list holds `{id, name}` exactly for each id in `activeUsers`, with the name stored for that id |
| `Registry.SnapshotSize` | server.js:72-75 | the online list has exactly one entry per key of `activeUsers` |
| `Registry.SnapshotAfterLogin` | server.js:63-75 | after a login the list is the old list plus the id's entry, whether or not the id was already online |
| `Registry.SnapshotAfterLogout` | server.js:115-121 | after deleting an id the list is the old list minus exactly that id's entry, and is unchanged if the id was not online |
| `Registry.CallerName` | server.js:87 | the caller name is the stored name when the id is registered with a non-empty name, and exactly 'Unknown User' otherwise, so it is never empty |
| `Signaling.Server.constructor` | server.js:14-22 | start-up state: the three seeded accounts, counter 1004, nobody online, bound or connected; `Valid()` holds |
| `Signaling.Server.Register` | server.js:28-50 | a taken email gives the 409 reply and changes nothing; otherwise the account is stored under the old counter's decimal string, which was not yet a key, and the counter goes up by one; presence state is untouched and `Valid()` is kept |
| `Signaling.Server.Connect` | server.js:54-55 | a socket id never issued before (so not connected now) joins the connected set and is recorded as issued; nothing else changes |
| `Signaling.Server.Login` | server.js:58-81 | an unknown id yields only `login_error('Invalid Fixed User ID')` to the socket and no state change; a known id overwrites `activeUsers[id]` with this socket, binds the socket, sends `login_success(user)` to it and broadcasts the online list, which contains the id, to every connected socket |
| `Signaling.Server.CallRequest` | server.js:84-98 | changes nothing; an unbound socket gets only `error('Please log in first.')`; a bound caller whose callee is online causes exactly one `incoming_call{callerId, callerName}` to the callee's socket; otherwise the caller gets `call_rejected('<calleeId> is currently offline.')` |
| `Signaling.Server.Signal` | server.js:101-110 | changes nothing and ignores the sender's login; forwards `{senderId, signal}` unchanged to the recipient's socket when the recipient is online, else emits nothing |
| `Signaling.Server.Disconnect` | server.js:113-124 | the socket leaves the connected set and loses its binding; if it was bound, its id is deleted from `activeUsers` (all other entries kept) and the online list, which no longer has the id, goes to the remaining sockets; if unbound, nothing is emitted and `activeUsers` is unchanged |
| `Scenarios.FirstRegistration` | server.js:14-49 | the first registration after start-up with a new email returns id "1004" with status 200, success true and the text 'Registration successful. Use this ID to log in.' |
| `Scenarios.RegisterTwice` | server.js:28-50 | registering the same email a second time gets the 409 reply with success false and the text 'Email already registered.', and leaves the directory as the first registration left it |
| `Scenarios.CallThenLeave` | server.js:84-124 | a call request, an offer relay and the callee's disconnect produce `login_success` and `update_user_list` for the caller's login, then `incoming_call`, the relayed offer as `signal`, and then only `update_user_list` without the callee; no call-ended notice |
| `Scenarios.Takeover` | server.js:58-124 | when two sockets log in as one id and the first disconnects, the id leaves `activeUsers` though the second socket is still bound to it, and calls to it are rejected as offline with `call_rejected` |
| `Scenarios.StaleEntry` | server.js:58-124 | a socket that logs in as `a`, then `b`, then disconnects leaves `a` registered on the closed socket, which can never connect again, and a call to `a` is addressed to that socket |
| `Scenarios.UnknownIdCall` | server.js:58-98 | after a failed login with an unknown id, a call request gets only `error('Please log in first.')`, the login having produced only `login_error` |

## Left out

- public/client.js: the browser client (DOM updates, media capture, `fetch`, the SimplePeer WebRTC library) is not part of this model.
- Transport and framework plumbing: Express routing and JSON parsing, socket.io delivery, `server.listen` and `console.log` are I/O. Emitted events are returned as `Message` values, and the HTTP reply as a `RegisterReply` (status, success flag, id, name, message text).
- Concurrency: Node's event loop runs each handler atomically, so handlers are whole methods with no interleaving.
- Registry.Snapshot: the list is built in `Object.keys(activeUsers)` order; the model keeps its entries as a set. `SnapshotSize` shows that no entry is lost or duplicated.
- JavaScript object semantics: prototype keys such as `USER_DB['constructor']` and coercion of non-string ids are not modelled. `USER_DB` and `activeUsers` are Dafny maps with string keys.
- Signaling.Server.Signal: `senderId`, `recipientId` and `signal` are strings here. In the source they are arbitrary client JSON, and a missing `recipientId` simply finds no socket. A `signal` event sent with no payload or a `null` one makes server.js:102 throw a `TypeError` while destructuring; that failure is not modelled.
- Signaling.Server.Register: `name`, `email` and `password` are strings. A request body missing a field (JavaScript `undefined`) is not modelled.
- Socket ids: modelled as natural numbers handed over by the transport. They are never empty, so the truthiness test on `calleeSocketId` is membership in `activeUsers`. `Connect` requires an id the transport has never issued before (the ghost set `everConnected`), and the handlers require the socket to be connected, as the transport guarantees.
- Signaling.Server.Register: `nextUserId` is an unbounded natural number. In the source it is a JavaScript number, and from 2^53 on `nextUserId++` no longer changes it, so ids would repeat and line 46 would overwrite an account. `FreshIdUnused`, `AddUserKeepsValid` and `Register`'s freshness guarantee hold only while the counter stays below 2^53.
- Security: passwords are stored in plain text and login checks no credential; there is nothing to verify about either.
- Call state, busy rejection, hangup, explicit reject, rewriting the sender id from the session, and a duplicate-login policy are absent from server.js, and so from the model.
