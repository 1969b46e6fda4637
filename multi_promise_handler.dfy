/**
 * The `multi-promise-handler` helper, `addon/helpers/multi-promise-handler.js`.
 *
 * `compute` lists the named promises with `Object.entries` and hands them to
 * `promiseCallback`, which pops the last pair, waits for that promise, lets
 * `successCallback` or `failCallback` write the pair's record into the
 * shared payload, and recurses on what is left. Each promise is represented
 * by how it settles; the chain is followed from the first pop to the end.
 */
module MultiPromiseHandler {
  import opened Js

  /** One `[category, promise]` pair, the promise given by its outcome. */
  datatype Entry = Entry(category: string, outcome: Outcome)

  /** The payload object: a record per category. */
  type Payload = map<string, Record>

  /**
   * What a callback returns: the payload object itself, or a promise that
   * fulfils with a payload. The `.catch` turns a rejected entry into a
   * record, so no callback ever returns a promise that rejects.
   */
  datatype Reply = Plain(payload: Payload) | Fulfils(payload: Payload)

  function Categories(entries: seq<Entry>): set<string> {
    set i | 0 <= i < |entries| :: entries[i].category
  }

  /** `Object.entries` of an object lists every key once. */
  predicate Distinct(entries: seq<Entry>) {
    forall i, j :: 0 <= i < j < |entries| ==> entries[i].category != entries[j].category
  }

  /**
   * The records written for a list of entries, in the order the helper
   * writes them: the last entry's first, then the rest's over it.
   * `RecordsAt` gives its order-free meaning for distinct categories.
   */
  function Records(entries: seq<Entry>): Payload
    decreases |entries|
  {
    if entries == [] then map[]
    else
      var last := entries[|entries| - 1];
      map[last.category := RecordOf(last.outcome)] + Records(entries[..|entries| - 1])
  }

  /** Only the categories of the entries get a record. */
  lemma {:induction false} RecordsKeys(entries: seq<Entry>)
    ensures Records(entries).Keys == Categories(entries)
    decreases |entries|
  {
    if entries != [] {
      var rest := entries[..|entries| - 1];
      RecordsKeys(rest);
      assert Categories(entries) == Categories(rest) + {entries[|entries| - 1].category} by {
        forall c | c in Categories(entries) ensures c in Categories(rest) + {entries[|entries| - 1].category} {
          var i :| 0 <= i < |entries| && entries[i].category == c;
          if i < |rest| { assert rest[i] == entries[i]; }
        }
        forall c | c in Categories(rest) ensures c in Categories(entries) {
          var i :| 0 <= i < |rest| && rest[i].category == c;
          assert entries[i] == rest[i];
        }
      }
    }
  }

  /**
   * With distinct categories the payload is exactly the categories of the
   * entries, each mapped to the record of its own outcome, whatever the order.
   */
  lemma {:induction false} RecordsAt(entries: seq<Entry>)
    requires Distinct(entries)
    ensures Records(entries).Keys == Categories(entries)
    ensures forall i :: 0 <= i < |entries| ==> Records(entries)[entries[i].category] == RecordOf(entries[i].outcome)
    decreases |entries|
  {
    RecordsKeys(entries);
    if entries != [] {
      var n := |entries| - 1;
      var rest := entries[..n];
      assert Distinct(rest) by {
        forall i, j | 0 <= i < j < n ensures rest[i].category != rest[j].category {
          assert rest[i] == entries[i] && rest[j] == entries[j];
        }
      }
      RecordsAt(rest);
      forall i | 0 <= i < |entries|
        ensures Records(entries)[entries[i].category] == RecordOf(entries[i].outcome)
      {
        if i < n {
          assert rest[i] == entries[i];
        } else {
          PopDistinct(entries);
          assert entries[n].category !in Records(rest);
        }
      }
    }
  }

  /** The popped entry's category is not among those left. */
  lemma PopDistinct(entries: seq<Entry>)
    requires Distinct(entries) && |entries| > 0
    ensures Distinct(entries[..|entries| - 1])
    ensures entries[|entries| - 1].category !in Categories(entries[..|entries| - 1])
    ensures Categories(entries[..|entries| - 1]) <= Categories(entries)
  {
  }

  /**
   * Writing the popped entry's record into a payload, then the records of
   * the rest, gives the payload with the records of all entries.
   */
  lemma PopIntoPayload(promises: seq<Entry>, payload: Payload)
    requires |promises| > 0
    ensures payload[promises[|promises| - 1].category := RecordOf(promises[|promises| - 1].outcome)]
              + Records(promises[..|promises| - 1])
            == payload + Records(promises)
  {
  }

  /** An entry listed in `entries` is found in their records under its category. */
  lemma RecordOfListed(entries: seq<Entry>, e: Entry)
    requires Distinct(entries) && e in multiset(entries)
    ensures e.category in Records(entries) && Records(entries)[e.category] == RecordOf(e.outcome)
  {
    var j :| 0 <= j < |entries| && entries[j] == e;
    RecordsAt(entries);
  }

  /** Every key of the records belongs to some listed entry. */
  lemma ListedOwner(entries: seq<Entry>, c: string) returns (e: Entry)
    requires c in Records(entries)
    ensures e in multiset(entries) && e.category == c
  {
    RecordsKeys(entries);
    var i :| 0 <= i < |entries| && entries[i].category == c;
    e := entries[i];
  }

  /** Any two listings of the same pairs give the same payload. */
  lemma OrderIndependent(a: seq<Entry>, b: seq<Entry>)
    requires Distinct(a) && Distinct(b)
    requires multiset(a) == multiset(b)
    ensures Records(a) == Records(b)
  {
    forall c | c in Records(a)
      ensures c in Records(b) && Records(a)[c] == Records(b)[c]
    {
      var e := ListedOwner(a, c);
      RecordOfListed(a, e);
      RecordOfListed(b, e);
    }
    forall c | c in Records(b)
      ensures c in Records(a)
    {
      var e := ListedOwner(b, c);
      RecordOfListed(a, e);
    }
  }

  /**
   * `promiseCallback(promises, payload)`. `written` lists the categories in
   * the order their records are written.
   */
  method PromiseCallback(promises: seq<Entry>, payload: Payload) returns (r: Reply, ghost written: seq<string>)
    // The empty list returns the payload object itself; otherwise a promise, which never rejects.
    ensures r.Plain? <==> promises == []
    ensures r.payload == payload + Records(promises)
    // Keys written before and not among the entries keep their records.
    ensures forall c :: c in payload && c !in Categories(promises) ==> c in r.payload && r.payload[c] == payload[c]
    // One pop per step, from the end of the list: each entry's category written once.
    ensures |written| == |promises|
    ensures forall i :: 0 <= i < |written| ==> written[i] == promises[|promises| - 1 - i].category
    decreases |promises|, 0
  {
    if |promises| > 0 {
      var current := promises[|promises| - 1];
      var rest := promises[..|promises| - 1];
      PopIntoPayload(promises, payload);
      RecordsKeys(promises);
      var settled: Reply;
      match current.outcome {
        case Fulfilled(value) =>
          settled, written := SuccessCallback(value, rest, current.category, payload);
        case Rejected(reason) =>
          settled, written := FailCallback(reason, rest, current.category, payload);
      }
      return Fulfils(settled.payload), written;
    }
    return Plain(payload), [];
  }

  /** `successCallback(resolvedPromise, promises, category, payload)`. */
  method SuccessCallback(resolved: Value, promises: seq<Entry>, category: string, payload: Payload)
    returns (r: Reply, ghost written: seq<string>)
    ensures r.Plain? <==> promises == []
    ensures r.payload == payload[category := RecordOf(Fulfilled(resolved))] + Records(promises)
    // The category's record, unless a remaining entry writes it again.
    ensures category !in Categories(promises) ==>
              category in r.payload && r.payload[category] == Record(resolved, true, false, Null)
    ensures forall c :: c in payload && c != category && c !in Categories(promises) ==>
              c in r.payload && r.payload[c] == payload[c]
    ensures |written| == |promises| + 1 && written[0] == category
    ensures forall i :: 0 < i < |written| ==> written[i] == promises[|promises| - i].category
    decreases |promises|, 1
  {
    var next := payload[category := Record(resolved, true, false, Null)];
    ghost var rest: seq<string>;
    r, rest := PromiseCallback(promises, next);
    written := [category] + rest;
  }

  /** `failCallback(resolvedPromise, promises, category, payload)`: the rejection becomes data. */
  method FailCallback(reason: Value, promises: seq<Entry>, category: string, payload: Payload)
    returns (r: Reply, ghost written: seq<string>)
    ensures r.Plain? <==> promises == []
    ensures r.payload == payload[category := RecordOf(Rejected(reason))] + Records(promises)
    ensures category !in Categories(promises) ==>
              category in r.payload && r.payload[category] == Record(Null, false, true, reason)
    ensures forall c :: c in payload && c != category && c !in Categories(promises) ==>
              c in r.payload && r.payload[c] == payload[c]
    ensures |written| == |promises| + 1 && written[0] == category
    ensures forall i :: 0 < i < |written| ==> written[i] == promises[|promises| - i].category
    decreases |promises|, 1
  {
    var next := payload[category := Record(Null, false, true, reason)];
    ghost var rest: seq<string>;
    r, rest := PromiseCallback(promises, next);
    written := [category] + rest;
  }

  /**
   * `compute(args, promisesObj)`, with `promisesObj` given as its
   * `Object.entries` listing.
   */
  method Compute(promisesObj: seq<Entry>) returns (r: Reply)
    requires Distinct(promisesObj)
    // No entries: the empty payload itself, not a promise.
    ensures r.Plain? <==> promisesObj == []
    // Exactly the input's keys, each with the record of its own outcome.
    ensures r.payload.Keys == Categories(promisesObj)
    ensures forall i :: 0 <= i < |promisesObj| ==>
              r.payload[promisesObj[i].category] == RecordOf(promisesObj[i].outcome)
  {
    ghost var written;
    r, written := PromiseCallback(promisesObj, map[]);
    RecordsAt(promisesObj);
    assert map[] + Records(promisesObj) == Records(promisesObj);
  }
}
