/** Turning a query snapshot of `incidents` into the array the listing
    endpoints return: each child `id -> data` becomes `{ id, ...data }`, and
    the array is sorted by `b.timestamp - a.timestamp`, newest first.
 */
module Listing {
  import opened Database

  /** `{ id, ...data }` for one child of the snapshot. */
  datatype Listed = Listed(id: string, incident: Incident)

  /** Non-increasing timestamps. */
  predicate NewestFirst(r: seq<Listed>) {
    forall i, j :: 0 <= i < j < |r| ==> r[i].incident.timestamp >= r[j].incident.timestamp
  }

  predicate DistinctIds(r: seq<Listed>) {
    forall i, j :: 0 <= i < j < |r| ==> r[i].id != r[j].id
  }

  /** Every entry is a child of m, copied unchanged. */
  predicate EntriesOf(r: seq<Listed>, m: map<string, Incident>) {
    forall i :: 0 <= i < |r| ==> r[i].id in m && m[r[i].id] == r[i].incident
  }

  ghost function Ids(r: seq<Listed>): set<string> {
    set i | 0 <= i < |r| :: r[i].id
  }

  lemma IdsAppend(r: seq<Listed>, x: Listed)
    ensures Ids(r + [x]) == Ids(r) + {x.id}
  {
    var r' := r + [x];
    assert forall i :: 0 <= i < |r| ==> r'[i] == r[i];
    assert r'[|r|] == x;
  }

  lemma EntriesAppend(r: seq<Listed>, m: map<string, Incident>, x: Listed)
    requires EntriesOf(r, m) && x.id in m && m[x.id] == x.incident
    ensures EntriesOf(r + [x], m)
  {
  }

  lemma DistinctAppend(r: seq<Listed>, x: Listed)
    requires DistinctIds(r) && x.id !in Ids(r)
    ensures DistinctIds(r + [x])
  {
  }

  lemma NewestAppend(r: seq<Listed>, x: Listed)
    requires NewestFirst(r)
    requires forall i :: 0 <= i < |r| ==> r[i].incident.timestamp >= x.incident.timestamp
    ensures NewestFirst(r + [x])
  {
  }

  /** A non-empty part of a snapshot has a newest child. */
  lemma {:induction false} NewestExists(m: map<string, Incident>, keys: set<string>)
    requires keys != {} && keys <= m.Keys
    ensures exists k :: k in keys && forall j :: j in keys ==> m[j].timestamp <= m[k].timestamp
    decreases keys
  {
    var k0 :| k0 in keys;
    if keys != {k0} {
      var rest := keys - {k0};
      NewestExists(m, rest);
      var k1 :| k1 in rest && forall j :: j in rest ==> m[j].timestamp <= m[k1].timestamp;
      if m[k0].timestamp <= m[k1].timestamp {
        assert forall j :: j in keys ==> m[j].timestamp <= m[k1].timestamp;
      } else {
        assert forall j :: j in keys ==> m[j].timestamp <= m[k0].timestamp;
      }
    } else {
      assert forall j :: j in keys ==> j == k0;
    }
  }

  /** What the selection loop of SortNewestFirst keeps: r lists the children
      of m outside left, newest first, and none of them is older than a
      child still in left. */
  ghost predicate Selected(r: seq<Listed>, m: map<string, Incident>, left: set<string>) {
    && left <= m.Keys
    && |r| + |left| == |m|
    && EntriesOf(r, m) && DistinctIds(r)
    && Ids(r) == m.Keys - left
    && NewestFirst(r)
    && forall i, k :: 0 <= i < |r| && k in left ==> r[i].incident.timestamp >= m[k].timestamp
  }

  lemma OlderRemainAppend(r: seq<Listed>, m: map<string, Incident>, left: set<string>, k: string)
    requires left <= m.Keys && k in left
    requires forall i, j :: 0 <= i < |r| && j in left ==> r[i].incident.timestamp >= m[j].timestamp
    requires forall j :: j in left ==> m[j].timestamp <= m[k].timestamp
    ensures forall i, j :: 0 <= i < |r| + 1 && j in left - {k} ==>
      (r + [Listed(k, m[k])])[i].incident.timestamp >= m[j].timestamp
  {
  }

  /** Moving the newest child still left to the end of r keeps Selected. */
  lemma SelectNewest(r: seq<Listed>, m: map<string, Incident>, left: set<string>, k: string)
    requires Selected(r, m, left)
    requires k in left && forall j :: j in left ==> m[j].timestamp <= m[k].timestamp
    ensures Selected(r + [Listed(k, m[k])], m, left - {k})
  {
    var x := Listed(k, m[k]);
    assert k !in Ids(r);
    assert |left - {k}| == |left| - 1;
    IdsAppend(r, x);
    EntriesAppend(r, m, x);
    DistinctAppend(r, x);
    NewestAppend(r, x);
    OlderRemainAppend(r, m, left, k);
  }

  /** `Object.entries(snapshot).map(...).sort((a, b) => b.timestamp - a.timestamp)`:
      every child exactly once, newest first. Children with equal timestamps
      keep the snapshot's key order, which this model does not fix. */
  method SortNewestFirst(m: map<string, Incident>) returns (r: seq<Listed>)
    ensures |r| == |m|
    ensures EntriesOf(r, m) && DistinctIds(r)
    ensures Ids(r) == m.Keys
    ensures NewestFirst(r)
  {
    r := [];
    var left := m.Keys;
    while left != {}
      invariant Selected(r, m, left)
      decreases left
    {
      NewestExists(m, left);
      var k :| k in left && forall j :: j in left ==> m[j].timestamp <= m[k].timestamp;
      SelectNewest(r, m, left, k);
      r := r + [Listed(k, m[k])];
      left := left - {k};
    }
  }

  /** `limitToLast(limit)` on a query: all children when there are at most
      limit of them, otherwise limit of them. Which ones the store keeps is
      decided by its key order, which this model leaves open. */
  method LimitToLast(m: map<string, Incident>, limit: nat) returns (sub: map<string, Incident>)
    ensures sub.Keys <= m.Keys
    ensures forall k :: k in sub ==> sub[k] == m[k]
    ensures |sub| == if |m| <= limit then |m| else limit
    ensures |m| <= limit ==> sub == m
  {
    if |m| <= limit {
      return m;
    }
    sub := map[];
    var pending := m.Keys;
    while |sub| < limit
      invariant sub.Keys <= m.Keys && pending == m.Keys - sub.Keys
      invariant forall k :: k in sub ==> sub[k] == m[k]
      invariant |sub| + |pending| == |m|
      invariant |sub| <= limit
      decreases limit - |sub|
    {
      var k :| k in pending;
      sub := sub[k := m[k]];
      pending := pending - {k};
    }
  }
}
