/** The incident workflow behind `/api/emergency`: the panic trigger, the
    per-user incident history, resolving an incident and the listing of active
    incidents. Each handler maps a request and the database to a reply and the
    database after its writes; the clock, the SMS configuration flag and the
    SMS gateway are parameters.
 */
module Emergency {
  import opened JsValues
  import opened Database
  import opened Sms
  import opened Listing

  /** The client-facing failures, with their HTTP status and message. */
  datatype ApiError =
    | MissingUserId
    | InvalidLocation
    | UserNotFound
    | NoContacts
    | MissingIncidentId
    | IncidentNotFound
  {
    function Status(): int {
      match this
      case UserNotFound => 404
      case IncidentNotFound => 404
      case _ => 400
    }

    function Message(): string {
      match this
      case MissingUserId => "Missing userId"
      case InvalidLocation => "Missing or invalid location data"
      case UserNotFound => "User not found"
      case NoContacts => "No emergency contacts found. Please add at least one emergency contact."
      case MissingIncidentId => "Missing incidentId"
      case IncidentNotFound => "Incident not found"
    }
  }

  /** The database after a handler's writes, and its reply. */
  datatype Step<R> = Step(reply: R, db: Db)

  // ---------------------------------------------------------------------------
  // POST /panic

  /** The `location` object of the request body. */
  datatype RequestLocation = RequestLocation(lat: Option<real>, lng: Option<real>)

  datatype PanicRequest = PanicRequest(userId: Option<string>, location: Option<RequestLocation>)

  /** What the handler takes from outside the request: the two `Date.now()`
      readings (incident record, then alert-log entry), whether the SMS
      gateway is configured, and the gateway itself. */
  datatype PanicEnv = PanicEnv(createdAt: int, loggedAt: int, smsConfigured: bool, send: Gateway)

  /** The SMS part of a successful reply: the two counts when sending was
      attempted, the warning otherwise. */
  datatype Delivery = Attempted(contactsNotified: nat, smsFailed: nat) | NotAttempted(warning: string)

  datatype PanicReply =
    | PanicOk(incidentId: string, totalContacts: nat, message: string, delivery: Delivery)
    | PanicErr(error: ApiError)

  const PanicMessage := "Emergency alert sent successfully"
  const SmsWarning := "SMS not configured - alerts saved to database only"

  /** `location && location.lat && location.lng`: a zero coordinate is falsy. */
  predicate ValidLocation(loc: Option<RequestLocation>) {
    loc.Some? && NumberTruthy(loc.value.lat) && NumberTruthy(loc.value.lng)
  }

  /** All four checks of the panic handler pass. */
  predicate Accepted(req: PanicRequest, db: Db) {
    && StringTruthy(req.userId)
    && ValidLocation(req.location)
    && req.userId.value in db.users
    && |db.users[req.userId.value].emergencyContacts| > 0
  }

  /** The panic handler's checks, in order; the first that fails is the reply. */
  function ValidatePanic(req: PanicRequest, db: Db): (e: Option<ApiError>)
    ensures e.None? <==> Accepted(req, db)
    ensures e == Some(MissingUserId) <==> !StringTruthy(req.userId)
    ensures e == Some(InvalidLocation) <==> StringTruthy(req.userId) && !ValidLocation(req.location)
    ensures e == Some(UserNotFound) <==>
      StringTruthy(req.userId) && ValidLocation(req.location) && req.userId.value !in db.users
    ensures e == Some(NoContacts) <==>
      && StringTruthy(req.userId) && ValidLocation(req.location) && req.userId.value in db.users
      && |db.users[req.userId.value].emergencyContacts| == 0
    ensures e.Some? ==> e.value.Status() == (if e.value == UserNotFound then 404 else 400)
  {
    if !StringTruthy(req.userId) then Some(MissingUserId)
    else if !ValidLocation(req.location) then Some(InvalidLocation)
    else if req.userId.value !in db.users then Some(UserNotFound)
    else if |db.users[req.userId.value].emergencyContacts| == 0 then Some(NoContacts)
    else None
  }

  /** The request's coordinates, once the location check has passed. */
  function Coordinates(loc: Option<RequestLocation>): LatLng
    requires ValidLocation(loc)
  {
    LatLng(loc.value.lat.value, loc.value.lng.value)
  }

  /** The contacts whose SOS message the gateway accepts. */
  function ReachedContacts(user: User, location: LatLng, send: Gateway): set<string> {
    set c | c in user.emergencyContacts
      && send(c, SosFor(user.emergencyContacts[c], OrElse(user.name, "User"), location)).Sent?
  }

  /** The contacts whose SOS message the gateway refuses. */
  function UnreachedContacts(user: User, location: LatLng, send: Gateway): set<string> {
    set c | c in user.emergencyContacts
      && send(c, SosFor(user.emergencyContacts[c], OrElse(user.name, "User"), location)).SendFailed?
  }

  /** The outcome of the SMS step of a panic: whether sending was attempted,
      and how many sends the gateway accepted and refused. */
  datatype Tally = Tally(attempted: bool, sent: nat, failed: nat)

  /** The SMS fan-out to the user's contacts when the gateway is configured,
      nothing otherwise. */
  function SendSos(user: User, location: LatLng, smsConfigured: bool, send: Gateway): (t: Tally)
    ensures t.attempted == smsConfigured
    ensures smsConfigured ==>
      && t.sent == |ReachedContacts(user, location, send)|
      && t.failed == |UnreachedContacts(user, location, send)|
      && t.sent + t.failed == |user.emergencyContacts|
    ensures !smsConfigured ==> t.sent == 0 && t.failed == 0
  {
    if smsConfigured then
      var results := FanOut(user.emergencyContacts, OrElse(user.name, "User"), location, send);
      assert Succeeded(results) == ReachedContacts(user, location, send);
      assert Failed(results) == UnreachedContacts(user, location, send);
      TallyPartition(results);
      assert results.Keys == user.emergencyContacts.Keys;
      assert |results| == |results.Keys| && |user.emergencyContacts| == |user.emergencyContacts.Keys|;
      Tally(true, |Succeeded(results)|, |Failed(results)|)
    else
      Tally(false, 0, 0)
  }

  /** The SMS step run as a loop over the contacts: it yields the same tally
      the handler's definition gives. */
  method SendSosInSequence(user: User, location: LatLng, send: Gateway) returns (t: Tally)
    ensures t == SendSos(user, location, true, send)
  {
    var name := OrElse(user.name, "User");
    var results, sent, failed := SendAll(user.emergencyContacts, name, location, send);
    FanOutUnique(results, user.emergencyContacts, name, location, send);
    t := Tally(true, sent, failed);
  }

  /** POST /panic. */
  function Panic(req: PanicRequest, db: Db, env: PanicEnv): (s: Step<PanicReply>)
    // a failed check is the reply, and nothing is written
    ensures s.reply.PanicOk? <==> Accepted(req, db)
    ensures s.reply.PanicErr? ==> ValidatePanic(req, db) == Some(s.reply.error) && s.db == db
    // exactly one new incident, under a fresh key; no existing incident changes
    ensures s.reply.PanicOk? ==>
      && s.reply.incidentId !in db.incidents
      && s.db.incidents.Keys == db.incidents.Keys + {s.reply.incidentId}
      && (forall id :: id in db.incidents ==> s.db.incidents[id] == db.incidents[id])
    // the new incident
    ensures s.reply.PanicOk? ==>
      var user := db.users[req.userId.value];
      var inc := s.db.incidents[s.reply.incidentId];
      && inc.userId == req.userId.value
      && inc.userName == (if StringTruthy(user.name) then user.name.value else "Unknown User")
      && inc.userEmail == (if StringTruthy(user.email) then user.email.value else "")
      && inc.location.lat == req.location.value.lat.value
      && inc.location.lng == req.location.value.lng.value
      && inc.timestamp == env.createdAt
      && inc.status == Active && inc.incidentType == PanicIncident && inc.resolvedAt == None
    // only the triggering user's alert log changes, by one appended entry
    ensures s.reply.PanicOk? ==> s.db.users.Keys == db.users.Keys
    ensures s.reply.PanicOk? ==>
      var uid := req.userId.value;
      var log := s.db.users[uid].sosAlerts;
      && (forall u :: u in db.users && u != uid ==> s.db.users[u] == db.users[u])
      && |log| == |db.users[uid].sosAlerts| + 1
      && log[..|log| - 1] == db.users[uid].sosAlerts
      && s.db.users[uid] == db.users[uid].(sosAlerts := log)
    // the appended alert-log entry
    ensures s.reply.PanicOk? ==>
      var user := db.users[req.userId.value];
      var log := s.db.users[req.userId.value].sosAlerts;
      var alert := log[|log| - 1];
      && alert.incidentId == s.reply.incidentId
      && alert.location == s.db.incidents[s.reply.incidentId].location
      && alert.contactsNotified == |user.emergencyContacts|
      && alert.smsAttempted == env.smsConfigured
      && alert.smsSent == (if env.smsConfigured
                           then |ReachedContacts(user, alert.location, env.send)| else 0)
      && alert.timestamp == env.loggedAt
    // the reply's counts
    ensures s.reply.PanicOk? ==>
      var user := db.users[req.userId.value];
      var location := Coordinates(req.location);
      && s.reply.totalContacts == |user.emergencyContacts|
      && s.reply.message == PanicMessage
      && (env.smsConfigured ==>
            && s.reply.delivery.Attempted?
            && s.reply.delivery.contactsNotified == |ReachedContacts(user, location, env.send)|
            && s.reply.delivery.smsFailed == |UnreachedContacts(user, location, env.send)|
            && s.reply.delivery.contactsNotified + s.reply.delivery.smsFailed == s.reply.totalContacts)
      && (!env.smsConfigured ==> s.reply.delivery == NotAttempted(SmsWarning))
  {
    match ValidatePanic(req, db)
    case Some(e) => Step(PanicErr(e), db)
    case None =>
      var uid := req.userId.value;
      var user := db.users[uid];
      var location := Coordinates(req.location);
      var key := FreshKey(db.incidents.Keys);
      var incident := Incident(uid, OrElse(user.name, "Unknown User"), OrElse(user.email, ""),
                               location, env.createdAt, Active, PanicIncident, None);
      var t := SendSos(user, location, env.smsConfigured, env.send);
      var alert := SosAlert(location, |user.emergencyContacts|, t.attempted, t.sent, env.loggedAt, key);
      var delivery := if t.attempted then Attempted(t.sent, t.failed) else NotAttempted(SmsWarning);
      Step(PanicOk(key, |user.emergencyContacts|, PanicMessage, delivery),
           Db(db.users[uid := user.(sosAlerts := user.sosAlerts + [alert])],
              db.incidents[key := incident]))
  }

  // ---------------------------------------------------------------------------
  // GET /incidents/:userId and GET /active

  datatype ListReply = Listing(count: nat, incidents: seq<Listed>) | ListErr(error: ApiError)

  /** The cap `limitToLast` puts on the history query. */
  const HistoryLimit: nat := 20

  /** The ids of the user's incidents. */
  function IncidentsOf(db: Db, userId: string): set<string> {
    set id | id in db.incidents && db.incidents[id].userId == userId
  }

  /** The ids of the incidents whose status is `active`. */
  function ActiveIncidents(db: Db): set<string> {
    set id | id in db.incidents && db.incidents[id].status == Active
  }

  /** GET /incidents/:userId. */
  method History(userId: Option<string>, db: Db) returns (reply: ListReply)
    ensures reply.ListErr? <==> !StringTruthy(userId)
    ensures reply.ListErr? ==> reply.error == MissingUserId
    ensures reply.Listing? ==>
      && reply.count == |reply.incidents|
      && EntriesOf(reply.incidents, db.incidents)
      && Ids(reply.incidents) <= IncidentsOf(db, userId.value)
      && DistinctIds(reply.incidents)
      && NewestFirst(reply.incidents)
      && reply.count == (if |IncidentsOf(db, userId.value)| <= HistoryLimit
                         then |IncidentsOf(db, userId.value)| else HistoryLimit)
      && (|IncidentsOf(db, userId.value)| <= HistoryLimit ==>
            Ids(reply.incidents) == IncidentsOf(db, userId.value))
  {
    if !StringTruthy(userId) {
      return ListErr(MissingUserId);
    }
    var uid := userId.value;
    var matching := map id | id in db.incidents && db.incidents[id].userId == uid :: db.incidents[id];
    assert matching.Keys == IncidentsOf(db, uid);
    var snapshot := LimitToLast(matching, HistoryLimit);
    var r := SortNewestFirst(snapshot);
    reply := Listing(|r|, r);
  }

  /** GET /active. */
  method ActiveList(db: Db) returns (reply: ListReply)
    ensures reply.Listing?
    ensures reply.count == |reply.incidents|
    ensures EntriesOf(reply.incidents, db.incidents)
    ensures Ids(reply.incidents) == ActiveIncidents(db)
    ensures DistinctIds(reply.incidents)
    ensures NewestFirst(reply.incidents)
  {
    var matching := map id | id in db.incidents && db.incidents[id].status == Active :: db.incidents[id];
    var r := SortNewestFirst(matching);
    reply := Listing(|r|, r);
  }

  // ---------------------------------------------------------------------------
  // POST /resolve/:incidentId

  datatype ResolveReply = ResolveOk(message: string) | ResolveErr(error: ApiError)

  const ResolveMessage := "Incident resolved successfully"

  /** POST /resolve/:incidentId: an unguarded overwrite of `status` and
      `resolvedAt` on an existing incident. */
  function Resolve(incidentId: Option<string>, db: Db, now: int): (s: Step<ResolveReply>)
    ensures !StringTruthy(incidentId) ==> s.reply == ResolveErr(MissingIncidentId) && s.db == db
    ensures StringTruthy(incidentId) && incidentId.value !in db.incidents ==>
      s.reply == ResolveErr(IncidentNotFound) && s.db == db
    ensures s.reply.ResolveOk? <==> StringTruthy(incidentId) && incidentId.value in db.incidents
    ensures s.reply.ResolveOk? ==>
      var id := incidentId.value;
      && s.reply.message == ResolveMessage
      && s.db.users == db.users
      && s.db.incidents.Keys == db.incidents.Keys
      && (forall other :: other in db.incidents && other != id ==> s.db.incidents[other] == db.incidents[other])
      && s.db.incidents[id].status == Resolved
      && s.db.incidents[id].resolvedAt == Some(now)
      && s.db.incidents[id] == db.incidents[id].(status := s.db.incidents[id].status,
                                                 resolvedAt := s.db.incidents[id].resolvedAt)
  {
    if !StringTruthy(incidentId) then Step(ResolveErr(MissingIncidentId), db)
    else if incidentId.value !in db.incidents then Step(ResolveErr(IncidentNotFound), db)
    else
      var id := incidentId.value;
      var resolved := db.incidents[id].(status := Resolved, resolvedAt := Some(now));
      Step(ResolveOk(ResolveMessage), db.(incidents := db.incidents[id := resolved]))
  }
}
