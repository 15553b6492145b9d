/** The tiered store: the local filesystem store in front of an external store. Reads go to the
    local tier first and fill it from the external tier on a miss; writes go to both tiers, the
    external one as detached work that `Close` waits for. */
module Tiered {
  import opened Base
  import opened Os
  import opened FileSystemStore

  // ---------------------------------------------------------------------------------------
  // The external tier

  /** The entry an external store keeps for a put: the request's OutputID, size and body. */
  function Stored(request: PutRequest): Entry
  {
    Entry(outputID := request.outputID, diskPath := "", bodySize := request.bodySize, body := Some(request.body))
  }

  /** `Get(key)` on an external store holding `entries`, whose `Get` fails for the keys of
      `getFaults`. An entry may carry no body (a nil `Body` reader). */
  function ExternalGet(entries: map<string, Entry>, getFaults: map<string, Error>, key: string): (r: GetResult)
    ensures key in getFaults ==> r == Fail(getFaults[key])
    ensures key !in getFaults ==> r.err.None? && (r.ok <==> key in entries)
    ensures r.ok ==> r.entry == entries[key]
    ensures !r.ok ==> r.entry == Entry()
  {
    if key in getFaults then Fail(getFaults[key])
    else if key in entries then GetResult(entries[key], true, None)
    else Miss
  }

  /** `Put(request)` on an external store: the entry is stored unless the put fails. */
  function ExternalPut(entries: map<string, Entry>, putFaults: map<string, Error>, request: PutRequest)
    : (r: (map<string, Entry>, PutResult))
    ensures request.key in putFaults ==> r == (entries, PutResult("", Some(putFaults[request.key])))
    ensures request.key !in putFaults ==> r == (entries[request.key := Stored(request)], PutResult("", None))
  {
    if request.key in putFaults then (entries, PutResult("", Some(putFaults[request.key])))
    else (entries[request.key := Stored(request)], PutResult("", None))
  }

  /** An external store (in production, the Redis store). The call counters record how often
      each operation was invoked. */
  class ExternalStore {
    var entries: map<string, Entry>
    const getFaults: map<string, Error>
    const putFaults: map<string, Error>
    const closeFault: Option<Error>
    var getCalls: nat
    var putCalls: nat
    var closeCalls: nat

    constructor (entries: map<string, Entry>, getFaults: map<string, Error>, putFaults: map<string, Error>, closeFault: Option<Error>)
      ensures this.entries == entries && this.getFaults == getFaults && this.putFaults == putFaults
      ensures this.closeFault == closeFault
      ensures getCalls == 0 && putCalls == 0 && closeCalls == 0
    {
      this.entries := entries;
      this.getFaults := getFaults;
      this.putFaults := putFaults;
      this.closeFault := closeFault;
      getCalls, putCalls, closeCalls := 0, 0, 0;
    }

    method Get(key: string) returns (r: GetResult)
      modifies this`getCalls
      ensures r == ExternalGet(entries, getFaults, key)
      ensures getCalls == old(getCalls) + 1
    {
      r := ExternalGet(entries, getFaults, key);
      getCalls := getCalls + 1;
    }

    method Put(request: PutRequest) returns (r: PutResult)
      modifies this`entries, this`putCalls
      ensures (entries, r) == ExternalPut(old(entries), putFaults, request)
      ensures putCalls == old(putCalls) + 1
    {
      var (entries', result) := ExternalPut(entries, putFaults, request);
      entries, r := entries', result;
      putCalls := putCalls + 1;
    }

    method Close() returns (err: Option<Error>)
      modifies this`closeCalls
      ensures err == closeFault
      ensures closeCalls == old(closeCalls) + 1
    {
      err := closeFault;
      closeCalls := closeCalls + 1;
    }
  }

  // ---------------------------------------------------------------------------------------
  // Specification of the tiered operations

  /** The local tier's `Get` is a clean miss, so the external tier is asked. */
  predicate LocalMiss(files: map<string, Bytes>, faults: Faults, dir: string, key: string)
  {
    FsGet(files, faults, dir, key) == Miss
  }

  /** What the tiered `Get(key)` leaves in the local tier and returns. */
  function TieredGet(files: map<string, Bytes>, faults: Faults, dir: string,
                     entries: map<string, Entry>, getFaults: map<string, Error>, key: string)
    : (r: (map<string, Bytes>, GetResult))
    // a local hit is returned unchanged
    ensures FsGet(files, faults, dir, key).ok ==> r == (files, FsGet(files, faults, dir, key))
    // a local error is an error, never a miss
    ensures FsGet(files, faults, dir, key).err.Some? ==>
      r == (files, Fail(Wrapped("unable to get key " + key + ": ", FsGet(files, faults, dir, key).err.value, "")))
    // a miss in both tiers changes nothing
    ensures LocalMiss(files, faults, dir, key) && ExternalGet(entries, getFaults, key) == Miss ==> r == (files, Miss)
    // an external error is an error
    ensures LocalMiss(files, faults, dir, key) && key in getFaults ==>
      r == (files, Fail(Wrapped("could not get key from " + key + ": ", getFaults[key], "")))
    // an external hit without a body is an error
    ensures LocalMiss(files, faults, dir, key) && ExternalGet(entries, getFaults, key).ok && entries[key].body.None? ==>
      r == (files, Fail(Failure("empty getResponse.Body " + key)))
    // an external hit with a body is written to the local tier
    ensures LocalMiss(files, faults, dir, key) && ExternalGet(entries, getFaults, key).ok && entries[key].body.Some? ==>
      r.0 == FsPut(files, faults, dir, PutRequest(key, entries[key].outputID, entries[key].body.value, entries[key].bodySize)).0
    // a failed local write is reported; otherwise the answer is the local tier's re-read
    ensures LocalMiss(files, faults, dir, key) && ExternalGet(entries, getFaults, key).ok && entries[key].body.Some? ==>
      var put := FsPut(files, faults, dir, PutRequest(key, entries[key].outputID, entries[key].body.value, entries[key].bodySize)).1;
      (put.err.Some? ==> r.1 == Fail(Wrapped("failed to store response: ", put.err.value, ""))) &&
      (put.err.None? ==> r.1 == FsGet(r.0, faults, dir, key))
    // every hit has a local disk path; anything else carries the zero entry
    ensures r.1.ok ==> r.1.err.None? && r.1.entry.diskPath == PathJoin(dir, key)
    ensures !r.1.ok ==> r.1.entry == Entry()
    // the filesystem tier never reports a body size, so neither does a backfilled hit
    ensures r.1.entry.bodySize == 0
  {
    var local := FsGet(files, faults, dir, key);
    if local.err.Some? then (files, Fail(Wrapped("unable to get key " + key + ": ", local.err.value, "")))
    else if local.ok then (files, local)
    else
      var remote := ExternalGet(entries, getFaults, key);
      if remote.err.Some? then (files, Fail(Wrapped("could not get key from " + key + ": ", remote.err.value, "")))
      else if !remote.ok then (files, Miss)
      else if remote.entry.body.None? then (files, Fail(Failure("empty getResponse.Body " + key)))
      else
        var request := PutRequest(key, remote.entry.outputID, remote.entry.body.value, remote.entry.bodySize);
        var (files', put) := FsPut(files, faults, dir, request);
        if put.err.Some? then (files', Fail(Wrapped("failed to store response: ", put.err.value, "")))
        else (files', FsGet(files', faults, dir, key))
  }

  /** What the tiered `Put(request)` leaves in the local tier and returns. The external write
      is detached, so nothing about the external tier enters the result. */
  function TieredPut(files: map<string, Bytes>, faults: Faults, dir: string, request: PutRequest)
    : (r: (map<string, Bytes>, PutResult))
    ensures r.0 == FsPut(files, faults, dir, request).0
    ensures r.1.err.None? <==> FsPut(files, faults, dir, request).1.err.None?
    ensures r.1.err.None? ==>
      r.1.diskPath == PathJoin(dir, request.key) &&
      r.0[PathJoin(dir, request.key)] == RecordLayout(request.outputID, request.body)
    ensures r.1.err.Some? ==>
      r.1 == PutResult("", Some(Wrapped("could not store response: ", FsPut(files, faults, dir, request).1.err.value, "")))
  {
    var (files', put) := FsPut(files, faults, dir, request);
    if put.err.Some? then (files', PutResult("", Some(Wrapped("could not store response: ", put.err.value, ""))))
    else (files', put)
  }

  /** The external tier after the detached puts `requests` have run, in order. */
  function Deliver(entries: map<string, Entry>, putFaults: map<string, Error>, requests: seq<PutRequest>): (r: map<string, Entry>)
    // no key is removed, and the only keys added are those put
    ensures entries.Keys <= r.Keys
    ensures forall key :: key in r && key !in entries ==> exists i :: 0 <= i < |requests| && requests[i].key == key
  {
    if requests == [] then entries
    else ExternalPut(Deliver(entries, putFaults, requests[..|requests| - 1]), putFaults, requests[|requests| - 1]).0
  }

  /** The last of `requests` with key `key`. */
  function LastPut(requests: seq<PutRequest>, key: string): Option<PutRequest>
  {
    if requests == [] then None
    else if requests[|requests| - 1].key == key then Some(requests[|requests| - 1])
    else LastPut(requests[..|requests| - 1], key)
  }

  /** `fmt.Errorf("%w %w", err1, err2)` when either is non-nil: an error that wraps both. */
  function Combine(err1: Option<Error>, err2: Option<Error>): (r: Option<Error>)
    ensures r.None? <==> err1.None? && err2.None?
    ensures r.Some? && err1.Some? ==> Is(r.value, err1.value)
    ensures r.Some? && err2.Some? ==> Is(r.value, err2.value)
    ensures r.Some? ==> Message(r.value) == OperandText(err1) + " " + OperandText(err2)
  {
    if err1.None? && err2.None? then None else Some(Joined(err1, err2))
  }

  // ---------------------------------------------------------------------------------------
  // The store

  /** The fixed part of a tiered store: the local directory, and the failures of both tiers. */
  datatype TierConfig = TierConfig(
    faults: Faults, dir: string,
    getFaults: map<string, Error>, putFaults: map<string, Error>, closeFault: Option<Error>)

  /** The changing part of a tiered store: the local files, the external entries and the
      detached puts. */
  datatype TierState = TierState(files: map<string, Bytes>, entries: map<string, Entry>, pending: seq<PutRequest>)

  class TieredStore {
    const local: FileSystemStorage
    const external: ExternalStore
    /** The external puts started by `Put` and not yet waited for. */
    var pending: seq<PutRequest>

    constructor (local: FileSystemStorage, external: ExternalStore)
      ensures this.local == local && this.external == external && pending == []
    {
      this.local := local;
      this.external := external;
      pending := [];
    }

    function Config(): TierConfig
    {
      TierConfig(local.disk.faults, local.dir, external.getFaults, external.putFaults, external.closeFault)
    }

    function State(): TierState
      reads this, local.disk, external
    {
      TierState(local.disk.files, external.entries, pending)
    }

    /** Reads the local tier; on a clean miss reads the external tier and backfills. */
    method Get(key: string) returns (r: GetResult)
      modifies local.disk`files, external`getCalls
      ensures (local.disk.files, r) ==
        TieredGet(old(local.disk.files), local.disk.faults, local.dir, external.entries, external.getFaults, key)
      ensures external.getCalls ==
        old(external.getCalls) + if LocalMiss(old(local.disk.files), local.disk.faults, local.dir, key) then 1 else 0
    {
      var got := local.Get(key);
      if got.err.Some? {
        return Fail(Wrapped("unable to get key " + key + ": ", got.err.value, ""));
      }
      if got.ok {
        return got;
      }
      got := external.Get(key);
      if got.err.Some? {
        return Fail(Wrapped("could not get key from " + key + ": ", got.err.value, ""));
      }
      if !got.ok {
        return Miss;
      }
      if got.entry.body.None? {
        return Fail(Failure("empty getResponse.Body " + key));
      }
      var put := local.Put(PutRequest(key, got.entry.outputID, got.entry.body.value, got.entry.bodySize));
      if put.err.Some? {
        return Fail(Wrapped("failed to store response: ", put.err.value, ""));
      }
      r := local.Get(key);
    }

    /** Starts the external put and writes the local tier. */
    method Put(request: PutRequest) returns (r: PutResult)
      modifies this`pending, local.disk`files
      ensures pending == old(pending) + [request]
      ensures (local.disk.files, r) == TieredPut(old(local.disk.files), local.disk.faults, local.dir, request)
    {
      pending := pending + [request];
      r := local.Put(request);
      if r.err.Some? {
        r := PutResult("", Some(Wrapped("could not store response: ", r.err.value, "")));
      }
    }

    /** Waits for the detached external puts, then closes both tiers. */
    method Close() returns (err: Option<Error>)
      modifies this`pending, external`entries, external`putCalls, external`closeCalls
      ensures pending == []
      ensures external.entries == Deliver(old(external.entries), external.putFaults, old(pending))
      ensures external.putCalls == old(external.putCalls) + |old(pending)|
      ensures external.closeCalls == old(external.closeCalls) + 1
      ensures err == Combine(None, external.closeFault)
    {
      var i := 0;
      while i < |pending|
        invariant 0 <= i <= |pending| && pending == old(pending)
        invariant external.entries == Deliver(old(external.entries), external.putFaults, pending[..i])
        invariant external.putCalls == old(external.putCalls) + i
        invariant external.closeCalls == old(external.closeCalls)
      {
        assert pending[..i + 1][..i] == pending[..i];
        var ignored := external.Put(pending[i]);
        i := i + 1;
      }
      assert pending[..i] == old(pending);
      pending := [];
      var err1 := local.Close();
      var err2 := external.Close();
      err := Combine(err1, err2);
    }
  }

  // ---------------------------------------------------------------------------------------
  // Properties

  /** Backfill: a key missing locally and present externally is written to the local tier, and
      the returned hit carries the external OutputID and the local disk path. */
  lemma TieredBackfill(files: map<string, Bytes>, faults: Faults, dir: string,
                       entries: map<string, Entry>, getFaults: map<string, Error>, key: string)
    requires faults.stat.None? && faults.open.None?
    requires key !in getFaults && key in entries && entries[key].body.Some?
    requires Newline !in entries[key].outputID
    requires FsGet(files, faults, dir, key) == Miss
    requires FsPut(files, faults, dir, PutRequest(key, entries[key].outputID, entries[key].body.value, entries[key].bodySize)).1.err.None?
    ensures
      var (files', got) := TieredGet(files, faults, dir, entries, getFaults, key);
      files' == files[PathJoin(dir, key) := RecordLayout(entries[key].outputID, entries[key].body.value)] &&
      got == GetResult(Entry(outputID := entries[key].outputID, diskPath := PathJoin(dir, key)), true, None)
  {
    var e := entries[key];
    FsRoundTrip(files, faults, dir, PutRequest(key, e.outputID, e.body.value, e.bodySize));
  }

  /** After a backfill the key is a local hit, so a second `Get` does not ask the external
      tier. */
  lemma TieredBackfillThenLocal(files: map<string, Bytes>, faults: Faults, dir: string,
                                entries: map<string, Entry>, getFaults: map<string, Error>, key: string)
    requires faults.stat.None? && faults.open.None?
    requires TieredGet(files, faults, dir, entries, getFaults, key).1.ok
    ensures !LocalMiss(TieredGet(files, faults, dir, entries, getFaults, key).0, faults, dir, key)
  {
    var (files', got) := TieredGet(files, faults, dir, entries, getFaults, key);
    assert PathJoin(dir, key) in files';
  }

  /** No detached put is lost: after the drain every key holds the entry of the last put to it,
      unless the external tier refuses puts to that key, in which case it holds what it held. */
  lemma {:induction false} DeliverLosesNothing(entries: map<string, Entry>, putFaults: map<string, Error>,
                                               requests: seq<PutRequest>, key: string)
    ensures key !in putFaults && LastPut(requests, key).Some? ==>
      key in Deliver(entries, putFaults, requests) &&
      Deliver(entries, putFaults, requests)[key] == Stored(LastPut(requests, key).value)
    ensures key in putFaults || LastPut(requests, key).None? ==>
      (key in Deliver(entries, putFaults, requests) <==> key in entries) &&
      (key in entries ==> Deliver(entries, putFaults, requests)[key] == entries[key])
  {
    if requests != [] {
      DeliverLosesNothing(entries, putFaults, requests[..|requests| - 1], key);
    }
  }

  /** `Put` followed by `Close` hands the same buffered bytes to both tiers: the local file holds
      them after the OutputID, and the external tier stores them with the OutputID and size. */
  lemma TieredPutReachesBothTiers(files: map<string, Bytes>, faults: Faults, dir: string,
                                  entries: map<string, Entry>, putFaults: map<string, Error>,
                                  pending: seq<PutRequest>, request: PutRequest)
    requires TieredPut(files, faults, dir, request).1.err.None?
    requires request.key !in putFaults
    ensures TieredPut(files, faults, dir, request).0[PathJoin(dir, request.key)] ==
      RecordLayout(request.outputID, request.body)
    ensures Deliver(entries, putFaults, pending + [request])[request.key] ==
      Entry(outputID := request.outputID, diskPath := "", bodySize := request.bodySize, body := Some(request.body))
  {
    assert (pending + [request])[..|pending|] == pending;
  }
}
