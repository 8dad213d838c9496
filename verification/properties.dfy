/** Properties of the incident workflow that relate several handler calls or
    hold of every reachable database.
 */
module Properties {
  import opened JsValues
  import opened Database
  import opened Sms
  import opened Emergency

  /** The incidents an alert log names. */
  ghost function Alerted(log: seq<SosAlert>): set<string> {
    set i | 0 <= i < |log| :: log[i].incidentId
  }

  lemma AlertedAppend(log: seq<SosAlert>, a: SosAlert)
    ensures Alerted(log + [a]) == Alerted(log) + {a.incidentId}
  {
    var log' := log + [a];
    assert forall i :: 0 <= i < |log| ==> log'[i] == log[i];
    assert log'[|log|] == a;
  }

  /** What every database built by the four handlers alone satisfies (writes
      to the same collections from elsewhere are outside this model):
      - each incident belongs to a known user, and that user's alert log
        names it (an incident and its alert-log entry come in pairs);
      - an incident carries `resolvedAt` exactly when it is resolved;
      - every alert-log entry names an incident of the same user. */
  ghost predicate Consistent(db: Db) {
    && (forall id :: id in db.incidents ==>
          && db.incidents[id].userId in db.users
          && id in Alerted(db.users[db.incidents[id].userId].sosAlerts))
    && (forall id :: id in db.incidents ==>
          (db.incidents[id].status == Resolved <==> db.incidents[id].resolvedAt.Some?))
    && (forall u, i :: u in db.users && 0 <= i < |db.users[u].sosAlerts| ==>
          && db.users[u].sosAlerts[i].incidentId in db.incidents
          && db.incidents[db.users[u].sosAlerts[i].incidentId].userId == u)
  }

  /** A database with no incidents and empty alert logs is consistent. */
  lemma FreshDatabaseConsistent(users: map<string, User>)
    requires forall u :: u in users ==> users[u].sosAlerts == []
    ensures Consistent(Db(users, map[]))
  {
  }

  lemma PanicKeepsConsistent(req: PanicRequest, db: Db, env: PanicEnv)
    requires Consistent(db)
    ensures Consistent(Panic(req, db, env).db)
  {
    var s := Panic(req, db, env);
    if s.reply.PanicOk? {
      var uid, key := req.userId.value, s.reply.incidentId;
      var log := s.db.users[uid].sosAlerts;
      var before := db.users[uid].sosAlerts;
      assert log == before + [log[|log| - 1]];
      AlertedAppend(before, log[|log| - 1]);
      forall id | id in s.db.incidents
        ensures s.db.incidents[id].userId in s.db.users
        ensures id in Alerted(s.db.users[s.db.incidents[id].userId].sosAlerts)
      {
        if id != key {
          var owner := db.incidents[id].userId;
          assert owner == uid || s.db.users[owner] == db.users[owner];
        }
      }
      forall u, i | u in s.db.users && 0 <= i < |s.db.users[u].sosAlerts|
        ensures s.db.users[u].sosAlerts[i].incidentId in s.db.incidents
        ensures s.db.incidents[s.db.users[u].sosAlerts[i].incidentId].userId == u
      {
        if u == uid && i == |log| - 1 {
          assert s.db.users[u].sosAlerts[i].incidentId == key;
        } else if u == uid {
          assert s.db.users[u].sosAlerts[i] == before[i];
        } else {
          assert s.db.users[u] == db.users[u];
        }
      }
    }
  }

  lemma ResolveKeepsConsistent(incidentId: Option<string>, db: Db, now: int)
    requires Consistent(db)
    ensures Consistent(Resolve(incidentId, db, now).db)
  {
  }

  /** The requests that write to the database. */
  datatype Request =
    | PanicCall(req: PanicRequest, env: PanicEnv)
    | ResolveCall(incidentId: Option<string>, now: int)

  function Apply(r: Request, db: Db): Db {
    match r
    case PanicCall(req, env) => Panic(req, db, env).db
    case ResolveCall(id, now) => Resolve(id, db, now).db
  }

  /** The database after serving the requests one after another. */
  function Run(rs: seq<Request>, db: Db): Db
    decreases |rs|
  {
    if rs == [] then db else Run(rs[1..], Apply(rs[0], db))
  }

  /** Consistency holds after any sequence of panics and resolves. */
  lemma {:induction false} RunKeepsConsistent(rs: seq<Request>, db: Db)
    requires Consistent(db)
    ensures Consistent(Run(rs, db))
    decreases |rs|
  {
    if rs != [] {
      match rs[0] {
        case PanicCall(req, env) => PanicKeepsConsistent(req, db, env);
        case ResolveCall(id, now) => ResolveKeepsConsistent(id, db, now);
      }
      RunKeepsConsistent(rs[1..], Apply(rs[0], db));
    }
  }

  /** A successful panic adds its incident to the active listing and to the
      user's history, and to no one else's. */
  lemma PanicListed(req: PanicRequest, db: Db, env: PanicEnv)
    requires Accepted(req, db)
    ensures var s := Panic(req, db, env);
      && ActiveIncidents(s.db) == ActiveIncidents(db) + {s.reply.incidentId}
      && IncidentsOf(s.db, req.userId.value) == IncidentsOf(db, req.userId.value) + {s.reply.incidentId}
      && forall u :: u != req.userId.value ==> IncidentsOf(s.db, u) == IncidentsOf(db, u)
  {
  }

  /** A successful resolve takes the incident off the active listing and
      leaves every user's history as it was. */
  lemma ResolveUnlisted(id: string, db: Db, now: int)
    requires id != "" && id in db.incidents
    ensures var s := Resolve(Some(id), db, now);
      && ActiveIncidents(s.db) == ActiveIncidents(db) - {id}
      && forall u :: IncidentsOf(s.db, u) == IncidentsOf(db, u)
  {
  }

  /** No handler turns a resolved incident back into an active one, and no
      handler removes an incident. */
  lemma ResolvedStaysResolved(db: Db, req: PanicRequest, env: PanicEnv, incidentId: Option<string>, now: int)
    ensures forall id :: id in db.incidents ==>
      && id in Panic(req, db, env).db.incidents
      && id in Resolve(incidentId, db, now).db.incidents
    ensures forall id :: id in db.incidents && db.incidents[id].status == Resolved ==>
      && Panic(req, db, env).db.incidents[id].status == Resolved
      && Resolve(incidentId, db, now).db.incidents[id].status == Resolved
  {
  }

  /** Resolving twice succeeds both times, and leaves the database as a single
      resolve at the later time would: the second call only refreshes
      `resolvedAt`. */
  lemma ResolveTwice(id: string, db: Db, first: int, second: int)
    requires id != "" && id in db.incidents
    ensures var once := Resolve(Some(id), db, first);
      && once.reply.ResolveOk?
      && Resolve(Some(id), once.db, second).reply.ResolveOk?
      && Resolve(Some(id), once.db, second).db == Resolve(Some(id), db, second).db
  {
  }

  /** Without a configured gateway the handler never consults it: the result
      is the same whatever the gateway would answer. */
  lemma UnconfiguredSendsNothing(req: PanicRequest, db: Db, env: PanicEnv, other: Gateway)
    requires !env.smsConfigured
    ensures Panic(req, db, env) == Panic(req, db, env.(send := other))
  {
  }

  /** A latitude of exactly 0 (the equator) fails the location check, since 0
      is falsy. */
  lemma ZeroLatitudeRejected(userId: string, lng: Option<real>, db: Db, env: PanicEnv)
    requires userId != ""
    ensures var req := PanicRequest(Some(userId), Some(RequestLocation(Some(0.0), lng)));
      Panic(req, db, env) == Step(PanicErr(InvalidLocation), db)
  {
  }

  /** A user with two contacts, a configured gateway that accepts both
      messages: two notified, none failed. */
  lemma TwoContactsBothReached()
    ensures
      var contacts := map["c1" := Contact("Ravi", "+1111", "brother", 0),
                          "c2" := Contact("Meera", "+2222", "friend", 0)];
      var db := Db(map["u1" := User(Some("Asha"), Some("asha@example.com"), contacts, [])], map[]);
      var req := PanicRequest(Some("u1"), Some(RequestLocation(Some(12.9), Some(77.6))));
      var env := PanicEnv(1000, 1001, true, (k: string, m: SosMessage) => Sent("SM1"));
      var s := Panic(req, db, env);
      && s.reply.PanicOk?
      && s.reply.totalContacts == 2
      && s.reply.delivery == Attempted(2, 0)
  {
  }

  /** Two contacts that share a phone number are two separate attempts: one
      can fail while the other succeeds. */
  lemma SharedPhoneSeparateAttempts()
    ensures
      var contacts := map["c1" := Contact("Ravi", "+1111", "brother", 0),
                          "c2" := Contact("Meera", "+1111", "friend", 0)];
      var user := User(Some("Asha"), None, contacts, []);
      var send := (k: string, m: SosMessage) => if k == "c1" then Sent("SM1") else SendFailed("busy");
      SendSos(user, LatLng(12.9, 77.6), true, send) == Tally(true, 1, 1)
  {
    var contacts := map["c1" := Contact("Ravi", "+1111", "brother", 0),
                        "c2" := Contact("Meera", "+1111", "friend", 0)];
    var user := User(Some("Asha"), None, contacts, []);
    var send := (k: string, m: SosMessage) => if k == "c1" then Sent("SM1") else SendFailed("busy");
    var location := LatLng(12.9, 77.6);
    assert ReachedContacts(user, location, send) == {"c1"};
    assert UnreachedContacts(user, location, send) == {"c2"};
  }
}
