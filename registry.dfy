/** The server's in-memory user directory and the pure views it derives from
    it: the registered-email test, the online-user list pushed to every
    client, and the display name shown to a callee. */
module Registry {
  import opened Decimal

  /** A transport connection handle (socket.io's `socket.id`). Handles are
      issued by the transport and are never empty, hence always truthy. */
  type SocketId = nat

  /** One account of the user "database". */
  datatype User = User(id: string, name: string, email: string, password: string)

  /** One element of the `update_user_list` payload. */
  datatype Entry = Entry(id: string, name: string)

  /** The three pre-registered accounts. */
  const SeedUsers: map<string, User> := map[
    "1001" := User("1001", "Barath", "barath@example.com", "password_1"),
    "1002" := User("1002", "John", "john@example.com", "password_2"),
    "1003" := User("1003", "Jane", "jane@example.com", "password_3")
  ]

  /** The value the id counter starts from. */
  const FirstFreeId: nat := 1004

  /** Name used when the caller's record has no (or an empty) name. */
  const UnknownCaller: string := "Unknown User"

  /** Some stored user already has this email. */
  predicate EmailTaken(db: map<string, User>, email: string) {
    exists u :: u in db.Values && u.email == email
  }

  /** Every record is stored under its own id. */
  ghost predicate KeyedById(db: map<string, User>) {
    forall id :: id in db ==> db[id].id == id
  }

  /** Every key is a decimal id that the counter has already passed. */
  ghost predicate IdsIssuedBelow(db: map<string, User>, next: nat) {
    forall id :: id in db ==> IsDecimal(id) && Value(id) < next
  }

  /** No two accounts share an email. */
  ghost predicate EmailsUnique(db: map<string, User>) {
    forall a, b :: a in db && b in db && db[a].email == db[b].email ==> a == b
  }

  ghost predicate DirectoryValid(db: map<string, User>, next: nat) {
    KeyedById(db) && IdsIssuedBelow(db, next) && EmailsUnique(db)
  }

  lemma EmailTakenByKey(db: map<string, User>, email: string)
    ensures EmailTaken(db, email) <==> exists id :: id in db && db[id].email == email
  {
  }

  lemma SeedsValid()
    ensures DirectoryValid(SeedUsers, FirstFreeId)
  {
    SeedIdsIssued();
    SeedEmailsUnique();
  }

  lemma SeedIdsIssued()
    ensures KeyedById(SeedUsers) && IdsIssuedBelow(SeedUsers, FirstFreeId)
  {
    FourDigitIdValue("1001", 1);
    FourDigitIdValue("1002", 2);
    FourDigitIdValue("1003", 3);
  }

  lemma SeedEmailsUnique()
    ensures EmailsUnique(SeedUsers)
  {
    var b, j, n := SeedUsers["1001"].email, SeedUsers["1002"].email, SeedUsers["1003"].email;
    assert b[0] != j[0] && b[0] != n[0] && j[1] != n[1];
  }

  /** The value of a four-digit id "100d". */
  lemma FourDigitIdValue(s: string, d: nat)
    requires d < 10 && s == ['1', '0', '0', DigitChar(d)]
    ensures IsDecimal(s) && Value(s) == 1000 + d
  {
    assert s[..3] == ['1', '0', '0'];
    assert s[..3][..2] == ['1', '0'];
    assert s[..3][..2][..1] == ['1'];
    assert Value(['1']) == 1;
    assert Value(['1', '0']) == 10;
    assert Value(['1', '0', '0']) == 100;
  }

  /** The id the counter hands out next is not yet a key. */
  lemma FreshIdUnused(db: map<string, User>, next: nat)
    requires IdsIssuedBelow(db, next)
    ensures Show(next) !in db
  {
    ValueOfShow(next);
  }

  /** The empty string, which JavaScript reads as "no id", is never a key. */
  lemma EmptyIdUnused(db: map<string, User>, next: nat)
    requires IdsIssuedBelow(db, next)
    ensures "" !in db
  {
  }

  /** Adding a user under the next id with an unregistered email keeps the
      directory valid and disturbs no existing record. */
  lemma AddUserKeepsValid(db: map<string, User>, next: nat, name: string, email: string, password: string)
    requires DirectoryValid(db, next)
    requires !EmailTaken(db, email)
    ensures Show(next) !in db
    ensures DirectoryValid(db[Show(next) := User(Show(next), name, email, password)], next + 1)
  {
    var id := Show(next);
    FreshIdUnused(db, next);
    ValueOfShow(next);
    EmailTakenByKey(db, email);
    var db' := db[id := User(id, name, email, password)];
    forall a, b | a in db' && b in db' && db'[a].email == db'[b].email
      ensures a == b
    {
    }
  }

  /** The `update_user_list` payload: one `{id, name}` entry per online id.
      The source builds a list in key order; the model keeps the entries as
      a set. */
  function Snapshot(active: map<string, SocketId>, db: map<string, User>): (r: set<Entry>)
    requires active.Keys <= db.Keys
  {
    set id | id in active :: Entry(id, db[id].name)
  }

  /** An entry is listed exactly when its id is online and its name is the
      one stored for that id. */
  lemma SnapshotMembers(active: map<string, SocketId>, db: map<string, User>)
    requires active.Keys <= db.Keys
    ensures forall e :: e in Snapshot(active, db) <==> e.id in active && e.name == db[e.id].name
  {
  }

  /** The list has exactly one entry per online id. */
  lemma {:induction false} SnapshotSize(active: map<string, SocketId>, db: map<string, User>)
    requires active.Keys <= db.Keys
    ensures |Snapshot(active, db)| == |active|
    decreases |active|
  {
    if active != map[] {
      var id :| id in active;
      var rest := active - {id};
      assert active.Keys == rest.Keys + {id};
      SnapshotSize(rest, db);
      assert Snapshot(active, db) == Snapshot(rest, db) + {Entry(id, db[id].name)};
    }
  }

  /** Logging `id` in adds its entry to the list and removes none, whether
      or not `id` was online before. */
  lemma SnapshotAfterLogin(active: map<string, SocketId>, db: map<string, User>, id: string, sid: SocketId)
    requires active.Keys <= db.Keys && id in db
    ensures Snapshot(active[id := sid], db) == Snapshot(active, db) + {Entry(id, db[id].name)}
  {
  }

  /** Logging `id` out removes exactly its entry from the list. */
  lemma SnapshotAfterLogout(active: map<string, SocketId>, db: map<string, User>, id: string)
    requires active.Keys <= db.Keys
    ensures id in db ==> Snapshot(active - {id}, db) == Snapshot(active, db) - {Entry(id, db[id].name)}
    ensures id !in active ==> Snapshot(active - {id}, db) == Snapshot(active, db)
  {
  }

  /** `USER_DB[callerId]?.name || 'Unknown User'`. */
  function CallerName(db: map<string, User>, callerId: string): (name: string)
    ensures name != ""
    ensures callerId in db && db[callerId].name != "" ==> name == db[callerId].name
    ensures !(callerId in db && db[callerId].name != "") ==> name == UnknownCaller
  {
    if callerId in db && db[callerId].name != "" then db[callerId].name else UnknownCaller
  }
}
