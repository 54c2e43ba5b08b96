/** The `incidents` collection of the document store, as the services use
    it: `collection.document()` allocates a fresh document id, `set` writes a
    whole document, and the history query orders documents by their
    `timestamp` field, newest first, and keeps the first few.  Document ids
    are drawn from a counter; the store's own id generator is not modelled. */
module IncidentRepo {
  import opened Values

  /** The store replaces the `SERVER_TIMESTAMP` placeholder by its commit
      time when it writes a document; every other field is written as given. */
  function ResolveServerTimestamps(record: Dict, commitTime: int): (r: Dict)
    ensures r.Keys == record.Keys
    ensures forall k :: k in record && record[k] != ServerTimestamp ==> r[k] == record[k]
    ensures forall k :: k in record && record[k] == ServerTimestamp ==> r[k] == VTime(commitTime)
  {
    map k | k in record :: if record[k] == ServerTimestamp then VTime(commitTime) else record[k]
  }

  class IncidentStore {
    var docs: map<nat, Dict>
    var nextId: nat

    /** Every stored document has an id already handed out. */
    ghost predicate Valid()
      reads this
    {
      forall id :: id in docs ==> id < nextId
    }

    constructor ()
      ensures Valid() && docs == map[]
    {
      docs := map[];
      nextId := 0;
    }

    /** `collection.document()`: a reference under an id no document has. */
    method NewDocument() returns (id: nat)
      requires Valid()
      modifies this
      ensures Valid()
      ensures id !in docs && docs == old(docs)
      ensures id == old(nextId) && nextId == old(nextId) + 1
    {
      id := nextId;
      nextId := nextId + 1;
    }

    /** `doc_ref.set(record)`: on success the document holds exactly the
        record, its placeholders resolved; on failure nothing changes. */
    method Set(id: nat, record: Dict, write: Outcome, commitTime: int)
      requires Valid() && id < nextId
      modifies this
      ensures Valid() && nextId == old(nextId)
      ensures write.Done? ==> docs == old(docs)[id := ResolveServerTimestamps(record, commitTime)]
      ensures write.Failed? ==> docs == old(docs)
    {
      if write.Done? {
        docs := docs[id := ResolveServerTimestamps(record, commitTime)];
      }
    }

    /** `IncidentRepository.save`: a new document holding the record; its id
        is returned, or the store's error is raised. */
    method Save(record: Dict, write: Outcome, commitTime: int) returns (r: Result<nat>)
      requires Valid()
      modifies this
      ensures Valid()
      ensures write.Done? ==> r == Ok(old(nextId)) && old(nextId) !in old(docs)
                              && docs == old(docs)[old(nextId) := ResolveServerTimestamps(record, commitTime)]
      ensures write.Failed? ==> r == Raise(write.exc) && docs == old(docs)
    {
      var id := NewDocument();
      Set(id, record, write, commitTime);
      r := if write.Done? then Ok(id) else Raise(write.exc);
    }
  }

  // ---- ordering by timestamp ----

  /** The document's `timestamp`, when it holds a time. */
  function TimeOf(doc: Dict): Option<int> {
    if "timestamp" in doc && doc["timestamp"].VTime? then Some(doc["timestamp"].t) else None
  }

  predicate Timed(docs: map<nat, Dict>, id: nat) {
    id in docs && TimeOf(docs[id]).Some?
  }

  function Time(docs: map<nat, Dict>, id: nat): int {
    if Timed(docs, id) then TimeOf(docs[id]).value else 0
  }

  ghost predicate NewestFirst(ids: seq<nat>, docs: map<nat, Dict>) {
    forall i, j :: 0 <= i < j < |ids| ==> Time(docs, ids[i]) >= Time(docs, ids[j])
  }

  /** No id occurs twice. */
  ghost predicate Distinct(ids: seq<nat>) {
    forall i, j :: 0 <= i < j < |ids| ==> ids[i] != ids[j]
  }

  /** The ids below n of the documents that have a time, in increasing order. */
  function TimedIds(docs: map<nat, Dict>, n: nat): (ids: seq<nat>)
    ensures forall i :: 0 <= i < |ids| ==> ids[i] < n && Timed(docs, ids[i])
    ensures forall id: nat :: id < n && Timed(docs, id) ==> id in ids
    ensures forall i, j :: 0 <= i < j < |ids| ==> ids[i] < ids[j]
  {
    if n == 0 then []
    else TimedIds(docs, n - 1) + (if Timed(docs, n - 1) then [n - 1] else [])
  }

  /** Putting an id no older than the head in front keeps a list newest first. */
  lemma ConsNewestFirst(id: nat, ids: seq<nat>, docs: map<nat, Dict>)
    requires NewestFirst(ids, docs)
    requires ids == [] || Time(docs, id) >= Time(docs, ids[0])
    ensures NewestFirst([id] + ids, docs)
  {
    var r := [id] + ids;
    forall i, j | 0 <= i < j < |r| ensures Time(docs, r[i]) >= Time(docs, r[j]) {
      assert r[j] == ids[j - 1];
      if i > 0 {
        assert r[i] == ids[i - 1];
      } else if j > 1 {
        assert Time(docs, ids[0]) >= Time(docs, ids[j - 1]);
      }
    }
  }

  /** Inserts an id into a newest-first list before the first id no newer than it. */
  function InsertByTime(id: nat, ids: seq<nat>, docs: map<nat, Dict>): (r: seq<nat>)
    requires NewestFirst(ids, docs)
    ensures NewestFirst(r, docs)
    ensures multiset(r) == multiset(ids) + multiset{id}
    ensures |r| == |ids| + 1 && (r[0] == id || (ids != [] && r[0] == ids[0]))
  {
    if ids == [] || Time(docs, id) >= Time(docs, ids[0]) then
      ConsNewestFirst(id, ids, docs);
      [id] + ids
    else
      assert NewestFirst(ids[1..], docs);
      var rest := InsertByTime(id, ids[1..], docs);
      assert ids == [ids[0]] + ids[1..];
      assert Time(docs, ids[0]) >= Time(docs, rest[0]);
      ConsNewestFirst(ids[0], rest, docs);
      [ids[0]] + rest
  }

  /** A list without repetitions holds each id at most once. */
  lemma {:induction false} DistinctCount(ids: seq<nat>, x: nat)
    requires Distinct(ids)
    ensures multiset(ids)[x] <= 1
    decreases |ids|
  {
    if ids != [] {
      assert ids == [ids[0]] + ids[1..];
      assert Distinct(ids[1..]) by {
        forall i, j | 0 <= i < j < |ids| - 1 ensures ids[1..][i] != ids[1..][j] {
          assert ids[1..][i] == ids[i + 1] && ids[1..][j] == ids[j + 1];
        }
      }
      DistinctCount(ids[1..], x);
      forall k | 0 <= k < |ids| - 1 ensures ids[1..][k] != ids[0] {
        assert ids[1..][k] == ids[k + 1];
      }
      assert ids[0] !in ids[1..];
    }
  }

  /** An id at two positions occurs at least twice. */
  lemma RepeatCount(ids: seq<nat>, i: nat, j: nat)
    requires i < j < |ids|
    ensures ids[i] == ids[j] ==> multiset(ids)[ids[i]] >= 2
  {
    assert ids == ids[..j] + ids[j..];
    assert ids[..j][i] == ids[i] && ids[j..][0] == ids[j];
    assert ids[i] in multiset(ids[..j]) && ids[j] in multiset(ids[j..]);
  }

  /** A permutation of a list without repetitions has none either. */
  lemma PermutationDistinct(a: seq<nat>, b: seq<nat>)
    requires multiset(a) == multiset(b) && Distinct(a)
    ensures Distinct(b)
  {
    forall i, j | 0 <= i < j < |b| ensures b[i] != b[j] {
      RepeatCount(b, i, j);
      DistinctCount(a, b[i]);
    }
  }

  /** The ids ordered by the time of their documents, newest first. */
  function SortByTime(ids: seq<nat>, docs: map<nat, Dict>): (r: seq<nat>)
    ensures NewestFirst(r, docs)
    ensures multiset(r) == multiset(ids)
  {
    if ids == [] then []
    else
      assert ids == [ids[0]] + ids[1..];
      InsertByTime(ids[0], SortByTime(ids[1..], docs), docs)
  }

  /** `order_by("timestamp", direction=DESCENDING).limit(limit)` over the
      documents with ids below n. */
  function Recent(docs: map<nat, Dict>, n: nat, limit: nat): (ids: seq<nat>)
    ensures |ids| <= limit
  {
    Take(SortByTime(TimedIds(docs, n), docs), limit)
  }

  /** The history query returns no document twice. */
  lemma RecentDistinct(docs: map<nat, Dict>, n: nat, limit: nat)
    ensures Distinct(Recent(docs, n, limit))
  {
    var all := TimedIds(docs, n);
    var sorted := SortByTime(all, docs);
    var r := Take(sorted, limit);
    PermutationDistinct(all, sorted);
    forall i, j | 0 <= i < j < |r| ensures r[i] != r[j] {
      assert r[i] == sorted[i] && r[j] == sorted[j];
    }
  }

  /** The history query returns at most `limit` distinct timed documents,
      newest first, and no timed document it leaves out is newer than one it
      returns; it leaves documents out only when it returns `limit` of them. */
  lemma RecentSpec(docs: map<nat, Dict>, n: nat, limit: nat)
    requires forall id :: id in docs ==> id < n
    ensures var r := Recent(docs, n, limit);
      && |r| <= limit
      && Distinct(r)
      && (forall i :: 0 <= i < |r| ==> Timed(docs, r[i]))
      && NewestFirst(r, docs)
      && (forall id: nat :: Timed(docs, id) && id !in r ==>
            |r| == limit && forall i :: 0 <= i < |r| ==> Time(docs, id) <= Time(docs, r[i]))
  {
    RecentDistinct(docs, n, limit);
    RecentOnlyTimed(docs, n, limit);
    RecentLeavesOutOlder(docs, n, limit);
  }

  /** The history query returns only documents that have a time. */
  lemma RecentOnlyTimed(docs: map<nat, Dict>, n: nat, limit: nat)
    ensures var r := Recent(docs, n, limit);
      forall i :: 0 <= i < |r| ==> Timed(docs, r[i])
  {
    var all := TimedIds(docs, n);
    var sorted := SortByTime(all, docs);
    var r := Take(sorted, limit);
    forall i | 0 <= i < |r| ensures Timed(docs, r[i]) {
      assert r[i] == sorted[i];
      assert sorted[i] in multiset(all);
    }
  }

  /** A timed document the query leaves out is no newer than any it returns. */
  lemma RecentLeavesOutOlder(docs: map<nat, Dict>, n: nat, limit: nat)
    requires forall id :: id in docs ==> id < n
    ensures var r := Recent(docs, n, limit);
      forall id: nat :: Timed(docs, id) && id !in r ==>
        |r| == limit && forall i :: 0 <= i < |r| ==> Time(docs, id) <= Time(docs, r[i])
  {
    var all := TimedIds(docs, n);
    var sorted := SortByTime(all, docs);
    var r := Take(sorted, limit);
    forall id: nat | Timed(docs, id) && id !in r
      ensures |r| == limit && forall i :: 0 <= i < |r| ==> Time(docs, id) <= Time(docs, r[i])
    {
      assert id in all;
      assert id in multiset(sorted);
      var k :| 0 <= k < |sorted| && sorted[k] == id;
      forall i | 0 <= i < |r| ensures Time(docs, id) <= Time(docs, r[i]) {
        assert r[i] == sorted[i];
      }
    }
  }
}
