/** The SOS text-message fan-out. The gateway call `sendSOSMessage` is an
    oracle: it catches every gateway error itself and resolves to a success
    (carrying the message sid) or a failure (carrying the error text); it
    never rejects.
 */
module Sms {
  import opened Database

  /** The arguments of one `sendSOSMessage(to, userName, location)` call. */
  datatype SosMessage = SosMessage(to: string, userName: string, location: LatLng)

  datatype SendResult = Sent(sid: string) | SendFailed(error: string)

  /** The gateway's answer to one attempt. An attempt is named by the key of
      the contact it goes to as well as by its message, so two contacts that
      share a phone number can still get different outcomes: each call is a
      separate request to the SMS service. */
  type Gateway = (string, SosMessage) -> SendResult

  /** The message for one contact: addressed to the contact's phone. */
  function SosFor(c: Contact, userName: string, location: LatLng): SosMessage {
    SosMessage(c.phone, userName, location)
  }

  /** One send per contact, keyed by the contact's id; the sends are
      independent, so collecting them one after another gives what
      `Promise.all` collects. */
  function FanOut(contacts: map<string, Contact>, userName: string, location: LatLng, send: Gateway)
    : map<string, SendResult>
  {
    map k | k in contacts :: send(k, SosFor(contacts[k], userName, location))
  }

  /** A map with one entry per contact, each the gateway's answer for that
      contact, is the fan-out. */
  lemma FanOutUnique(results: map<string, SendResult>, contacts: map<string, Contact>,
                     userName: string, location: LatLng, send: Gateway)
    requires results.Keys == contacts.Keys
    requires forall k :: k in results ==> results[k] == send(k, SosFor(contacts[k], userName, location))
    ensures results == FanOut(contacts, userName, location, send)
  {
  }

  /** `results.filter(r => r.success)`, as the set of contact ids. */
  function Succeeded(results: map<string, SendResult>): set<string> {
    set k | k in results && results[k].Sent?
  }

  /** `results.filter(r => !r.success)`, as the set of contact ids. */
  function Failed(results: map<string, SendResult>): set<string> {
    set k | k in results && results[k].SendFailed?
  }

  /** Every result is either a success or a failure, never both. */
  lemma {:induction false} TallyPartition(results: map<string, SendResult>)
    ensures |Succeeded(results)| + |Failed(results)| == |results|
  {
    var ok, bad := Succeeded(results), Failed(results);
    assert ok + bad == results.Keys;
    assert ok * bad == {};
    assert |ok + bad| == |ok| + |bad|;
  }

  /** Sends the SOS message to every contact, one after another, and tallies
      successes and failures as the handler does after `Promise.all`. */
  method SendAll(contacts: map<string, Contact>, userName: string, location: LatLng, send: Gateway)
    returns (results: map<string, SendResult>, sent: nat, failed: nat)
    ensures results.Keys == contacts.Keys
    ensures forall k :: k in results ==> results[k] == send(k, SosFor(contacts[k], userName, location))
    ensures sent == |Succeeded(results)| && failed == |Failed(results)|
    ensures sent + failed == |contacts|
  {
    results, sent, failed := map[], 0, 0;
    var pending := contacts.Keys;
    while pending != {}
      invariant pending <= contacts.Keys
      invariant results.Keys == contacts.Keys - pending
      invariant forall k :: k in results ==> results[k] == send(k, SosFor(contacts[k], userName, location))
      invariant sent == |Succeeded(results)| && failed == |Failed(results)|
      invariant sent + failed + |pending| == |contacts|
      decreases pending
    {
      var k :| k in pending;
      var r := send(k, SosFor(contacts[k], userName, location));
      var next := results[k := r];
      if r.Sent? {
        assert Succeeded(next) == Succeeded(results) + {k};
        assert Failed(next) == Failed(results);
        sent := sent + 1;
      } else {
        assert Succeeded(next) == Succeeded(results);
        assert Failed(next) == Failed(results) + {k};
        failed := failed + 1;
      }
      results := next;
      pending := pending - {k};
    }
  }
}
