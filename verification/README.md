# Safe-Ping+ incident workflow, in Dafny

A model of the incident workflow that the Safe-Ping+ backend serves under
`/api/emergency`. It covers four handlers:

- `POST /panic` validates the request and records an incident. It then texts
  every emergency contact and appends a summary to the user's SOS alert log.
- `GET /incidents/:userId` lists the incident history of one user.
- `POST /resolve/:incidentId` marks an incident resolved.
- `GET /active` lists every active incident.

The realtime database is a value, `Database.Db`. It holds a map of users and
a map of incidents keyed by id. Each user has an emergency-contact map and an
append-only `sosAlerts` sequence. `push()` is `Database.FreshKey`. It returns
the first key not yet in use from an injective family of candidate keys. A
pigeonhole lemma shows that one of the first `n + 1` candidates is free.

The two writing handlers, `Emergency.Panic` and `Emergency.Resolve`, are pure
functions. Each takes a request and a database and returns a `Step`: the reply
together with the database after the handler's writes. The two listing
handlers are methods. They only read, and they pick children of a map one at
a time.

The following become parameters (`Emergency.PanicEnv`, and `now` for resolve):

- the clock. `/panic` reads `Date.now()` twice: once for the incident record
  and once for the alert-log entry.
- the `isTwilioConfigured` flag.
- the SMS gateway `sendSOSMessage`. It is an oracle from one attempt to
  `Sent(sid)` or `SendFailed(error)`. An attempt is the contact's key together
  with the message, so each contact's send is a separate request whose outcome
  is independent of the others, even for contacts that share a phone number. The source function catches every Twilio
  error itself (backend/twilio-sms.js:26-38), so it never rejects, and the
  handler's own `.catch` cannot fire.

JavaScript truthiness is written out in `JsValues`. An absent field, the
empty string and the number 0 are falsy. `x || d` is `OrElse`.

Behaviour of the code that is easy to miss:

- The location check is `!location || !location.lat || !location.lng`. A
  coordinate of exactly 0 is therefore rejected, not only a missing one (see
  `Properties.ZeroLatitudeRejected`).
- The incident snapshot defaults a missing or empty user name to
  `'Unknown User'` and a missing email to `''`. The SMS text uses the default
  `'User'` instead.
- The history cap is Firebase's `limitToLast(20)` on a query ordered by
  `userId`. Which 20 are kept is decided by the store's key order, not by
  timestamp. Only then does the handler sort by timestamp.
- The contact fan-out is concurrent (`Promise.all`). The attempts are
  independent and collected per contact, so it is modelled as one send per
  contact key.

## Model

| member | source | states |
|---|---|---|
| `Emergency.ValidatePanic` | backend/routes/emergency.js:11-46 | The checks run in a fixed order and the first failure is the answer. A falsy `userId` gives MissingUserId whatever else is wrong. Otherwise a missing location or a falsy `lat`/`lng` gives InvalidLocation. Otherwise an unknown user gives UserNotFound, and otherwise an empty contact map gives NoContacts. No error means all four checks pass. UserNotFound is a 404 and the others are 400. |
| `Emergency.Panic` | backend/routes/emergency.js:7-118 | Gives an error reply exactly when a check fails, and then the database is unchanged. On success exactly one incident is added, under a key not used before. No existing incident changes. The new incident has the request's coordinates and `timestamp` from the first clock reading. It is `active`, of type `panic`, and has no `resolvedAt`. `userName` falls back to 'Unknown User' and `userEmail` to ''. Only the triggering user's alert log changes, by one appended entry. That entry names the new incident. Its `contactsNotified` is the number of contacts even when sends fail, and its `smsSent` is the number of contacts whose send succeeded (0 without a gateway). The reply carries the same incident id and `totalContacts` equal to the number of contacts. With a gateway it carries the notified and failed counts, which add up to `totalContacts`. Without one it carries only the warning. |
| `Emergency.SendSos` | backend/routes/emergency.js:66-88 | Without a configured gateway nothing is attempted and both counts are 0. With one, `sent` is the number of contacts whose message the gateway accepted and `failed` the number it refused. The two add up to the number of contacts. |
| `Sms.SendAll` | backend/routes/emergency.js:73-85 | Sending to the contacts one after another gives exactly one result per contact key. Each result is the gateway's answer to the message for that contact's phone. The running tallies equal the sizes of the success and failure filters and add up to the number of contacts. |
| `Emergency.SendSosInSequence` | backend/routes/emergency.js:73-84 | Running the sends one contact after another, as `Sms.SendAll` does, gives exactly the attempted flag and counts that the handler's SMS step defines. |
| `Sms.TallyPartition` | backend/routes/emergency.js:111-113 | `filter(r => r.success)` and `filter(r => !r.success)` split the results: their sizes add up to the number of results. |
| `Database.FreshKey` | backend/routes/emergency.js:49 | `push()` returns a key that no existing child of the collection uses. |
| `Emergency.History` | backend/routes/emergency.js:131-159 | A falsy `userId` is rejected as MissingUserId. Otherwise `count` is the array's length and every entry is a stored incident of that user, copied unchanged. No id appears twice, and timestamps do not increase along the array. The array holds min(20, n) entries, where n is the user's number of incidents. When n ≤ 20 it holds all of them. |
| `Listing.LimitToLast` | backend/routes/emergency.js:142-146 | The query keeps only children of the matching set, unchanged. It keeps all of them when there are at most 20 and exactly 20 otherwise. |
| `Listing.SortNewestFirst` | backend/routes/emergency.js:150-153 | The array holds every child of the snapshot exactly once, as `{ id, ...data }`. It is ordered by non-increasing timestamp. |
| `Emergency.ActiveList` | backend/routes/emergency.js:215-232 | Always succeeds. The ids listed are exactly those of the incidents whose status is `active`, with no cap. Each id appears once with its stored data. The array is newest first and `count` is its length. |
| `Emergency.Resolve` | backend/routes/emergency.js:171-203 | A falsy id gives MissingIncidentId and an unknown id gives IncidentNotFound. In both cases the database is unchanged. Resolve succeeds exactly when the incident exists. It then sets `status` to `resolved` and `resolvedAt` to the given time and changes no other field. Users, the set of incident ids and every other incident are unchanged. |
| `Properties.PanicKeepsConsistent` | backend/routes/emergency.js:49-101 | A panic preserves three facts. Every incident belongs to a known user whose alert log names it, so incidents and alert-log entries come in pairs. `resolvedAt` is present exactly on resolved incidents. Every alert-log entry names an incident of its own user. |
| `Properties.ResolveKeepsConsistent` | backend/routes/emergency.js:193-196 | A resolve preserves the same three facts. |
| `Properties.RunKeepsConsistent` | backend/routes/emergency.js:7-212 | The three facts hold after any sequence of panic and resolve requests served one after another from a consistent database. |
| `Properties.FreshDatabaseConsistent` | backend/routes/emergency.js:49-61 | A database with no incidents and empty alert logs satisfies the three facts. |
| `Properties.PanicListed` | backend/routes/emergency.js:49-61 | After a successful panic, the active listing gains exactly the new incident. So does the triggering user's history, and no other user's history changes. |
| `Properties.ResolveUnlisted` | backend/routes/emergency.js:193-196 | After a successful resolve, the incident leaves the active listing. Every user's history keeps the same ids. |
| `Properties.ResolvedStaysResolved` | backend/routes/emergency.js:193-196 | No handler deletes an incident, and no handler turns a resolved incident back into an active one. |
| `Properties.ResolveTwice` | backend/routes/emergency.js:183-196 | Resolving an incident twice succeeds both times. The result is the same database as a single resolve at the later time. |
| `Properties.UnconfiguredSendsNothing` | backend/routes/emergency.js:67-88 | Without a configured gateway the outcome does not depend on the gateway at all, so no send is attempted. |
| `Properties.ZeroLatitudeRejected` | backend/routes/emergency.js:19-24 | A request whose latitude is exactly 0 fails with InvalidLocation and writes nothing. |
| `Properties.SharedPhoneSeparateAttempts` | backend/routes/emergency.js:73-79 | Two contacts with the same phone number are two separate sends. When the gateway accepts one and refuses the other, the step counts one notified and one failed. |
| `Properties.TwoContactsBothReached` | backend/routes/emergency.js:70-113 | A user with two contacts, behind a gateway that accepts every message, gets `totalContacts` 2, two notified and none failed. |

## Left out

- The 500 paths: a failing database read or write, and the partial state left
  when the alert-log write fails after the incident write. The database is
  total here. That failure would leave an incident with no alert-log entry.
- Writes to the same collections from outside these four handlers. The
  browser front end pushes its own `active` incident into `incidents`
  (frontend/app.js:320-327), with no `userName`/`userEmail` and no alert-log
  entry naming it. It also pushes `sosAlerts` entries with no `incidentId`
  (frontend/app.js:343-346). `Properties.Consistent`, and the `Incident` and
  `SosAlert` record shapes, describe only data written by the four handlers
  modelled here. A database holding such front-end records is not
  `Consistent`, and the handlers' contracts do not cover records of those
  shapes.
- Console logging, and the SMS text itself. The text embeds the send time
  through `Date.toLocaleString()`, which depends on the locale. The model
  keeps only the recipient, the user name and the coordinates of each message.
  The gateway oracle is keyed by the contact as well (see above), so outcomes
  are not tied to equal message contents.
- How `isTwilioConfigured` is derived from environment variables. It is a
  boolean parameter.
- Concurrency: `Promise.all` is modelled as one independent send per contact.
  Two requests racing on the same database are not modelled.
- Values JavaScript allows but the store's records here do not: a `userId`
  that is not a string, and a non-numeric or `NaN` coordinate.
- Ids used as database paths. The handlers build the paths `users/${userId}`
  and `incidents/${incidentId}` by string interpolation. Express decodes
  `%2F` in route parameters, so an id containing `/` addresses a nested path.
  For example, resolving `k/location` for an existing incident `k` passes the
  existence check and writes `status` and `resolvedAt` inside `k`'s
  `location`. The source replies success and `k` stays active, whereas
  `Emergency.Resolve` replies IncidentNotFound. An id containing any of
  `.#$[]` makes `db.ref` throw, so the source answers 500 where the model
  answers 400 or 404. The model treats every id as one flat key.
- The real push-key format (a timestamp plus random characters). Keys are
  only required to be fresh.
- Emergency.History: does not say which 20 incidents `limitToLast(20)`
  keeps when a user has more, because that depends on the store's key order,
  which is not modelled.
- Listing.SortNewestFirst: does not fix the relative order of incidents
  with equal timestamps, because it depends on the snapshot's key order.
- Listing.LimitToLast: keeps some 20 of the matching children rather than
  the 20 with the greatest keys, for the same reason.
- Realtime Socket.IO broadcast, authentication, contact and location CRUD,
  reverse geocoding, and the browser front end's rendering, geolocation and
  timers. These are I/O or pass-through calls into external services and are
  not part of this model. The front end's own writes to `incidents` and
  `sosAlerts` are covered above.
