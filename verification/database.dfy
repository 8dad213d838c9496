/** The realtime database as a value: the `users` tree (profile fields, the
    `emergencyContacts` children and the `sosAlerts` log of each user) and the
    top-level `incidents` collection, both keyed by generated ids.
 */
module Database {
  import opened JsValues

  datatype LatLng = LatLng(lat: real, lng: real)

  /** One child of `users/<uid>/emergencyContacts`. */
  datatype Contact = Contact(name: string, phone: string, relation: string, addedAt: int)

  /** One entry of the append-only `users/<uid>/sosAlerts` log. */
  datatype SosAlert = SosAlert(
    location: LatLng,
    contactsNotified: nat,
    smsAttempted: bool,
    smsSent: nat,
    timestamp: int,
    incidentId: string)

  /** The parts of `users/<uid>` the incident workflow reads or writes. */
  datatype User = User(
    name: Option<string>,
    email: Option<string>,
    emergencyContacts: map<string, Contact>,
    sosAlerts: seq<SosAlert>)

  datatype Status = Active | Resolved

  datatype IncidentType = PanicIncident

  /** One child of `incidents`; `userName` and `userEmail` are a snapshot
      taken when the incident is created. */
  datatype Incident = Incident(
    userId: string,
    userName: string,
    userEmail: string,
    location: LatLng,
    timestamp: int,
    status: Status,
    incidentType: IncidentType,
    resolvedAt: Option<int>)

  datatype Db = Db(users: map<string, User>, incidents: map<string, Incident>)

  /** The i-th candidate key `push()` may hand out; distinct candidates have
      distinct lengths, so the family is injective. */
  function Candidate(i: nat): (k: string)
    ensures |k| == i + 1
  {
    seq(i + 1, _ => '-')
  }

  ghost function Candidates(n: nat): set<string> {
    set i | 0 <= i < n :: Candidate(i)
  }

  lemma {:induction false} CandidatesCount(n: nat)
    ensures |Candidates(n)| == n
  {
    if n > 0 {
      CandidatesCount(n - 1);
      assert Candidates(n) == Candidates(n - 1) + {Candidate(n - 1)};
      assert Candidate(n - 1) !in Candidates(n - 1);
    }
  }

  /** Pigeonhole: a key set that already holds the first n candidates has at
      least n keys. */
  lemma CandidatesTakenBound(keys: set<string>, n: nat)
    requires forall i :: 0 <= i < n ==> Candidate(i) in keys
    ensures n <= |keys|
  {
    CandidatesCount(n);
    var taken := Candidates(n);
    assert taken <= keys;
    assert keys == taken + (keys - taken);
    assert |keys| == |taken| + |keys - taken|;
  }

  /** The first candidate from i onwards that is not in keys. */
  function FirstFree(keys: set<string>, i: nat): (k: string)
    requires forall j :: 0 <= j < i ==> Candidate(j) in keys
    ensures k !in keys
    decreases |keys| - i
  {
    CandidatesTakenBound(keys, i);
    if Candidate(i) !in keys then Candidate(i)
    else
      CandidatesTakenBound(keys, i + 1);
      FirstFree(keys, i + 1)
  }

  /** `ref.push()`: a key that no child of the collection uses yet. */
  function FreshKey(keys: set<string>): (k: string)
    ensures k !in keys
  {
    FirstFree(keys, 0)
  }
}
