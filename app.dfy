/** The protocol engine: reads JSON values from the input stream, answers `get` and `put`
    requests from the tiered store, and stops at `close` or at the end of the stream.

    The stream is a sequence of already-split JSON values (frames). Work for `get` and `put`
    runs detached in the source; here each work item is collected while reading and run, in the
    order it was read, once reading has stopped, which is where the source waits for it. */
module Engine {
  import opened Base
  import opened Os
  import opened FileSystemStore
  import opened Tiered

  /** One JSON value of the input stream.
      ObjectFrame: an object, which decodes as a Request.
      BytesFrame:  a string holding base64 bytes, which decodes as a body.
      NullFrame:   `null`, which leaves the decoded value as it was: the zero Request (whose
                   empty command is skipped), or the nil, empty body.
      Malformed:   text the decoder rejects; the decoder keeps reporting `err` from then on. */
  datatype Frame =
    | ObjectFrame(request: Request)
    | BytesFrame(bytes: Bytes)
    | NullFrame
    | Malformed(err: Error)

  /** The error decoding a string into a Request gives. */
  const RequestTypeError := Failure("json: cannot unmarshal string into Go value of type main.Request")
  /** The error decoding an object into a body gives. */
  const BodyTypeError := Failure("json: cannot unmarshal object into Go value of type []uint8")

  /** A dispatched request whose store call is still to run. */
  datatype Work =
    | GetWork(request: Request)
    | PutWork(request: Request, body: Bytes)

  /** Why reading stopped: the end of the stream, a `close` request, or a decoding error that
      panics. */
  datatype Stop = AtEof | AtClose | Fatal(err: Error)

  /** What reading the stream produced: the dispatched work, the responses written while
      reading, and why it stopped. */
  datatype Scan = Scan(work: seq<Work>, replies: seq<Response>, stop: Stop)

  /** The read loop over the frames `rest`, having dispatched `work` and written `replies`. */
  function ScanFrom(rest: seq<Frame>, work: seq<Work>, replies: seq<Response>): (r: Scan)
    ensures |work| <= |r.work| && r.work[..|work|] == work
    ensures |replies| <= |r.replies| && r.replies[..|replies|] == replies
    decreases |rest|
  {
    if rest == [] then Scan(work, replies, AtEof)
    else
      match rest[0]
      case Malformed(e) => Scan(work, replies, if Is(e, EOF) then AtEof else Fatal(e))
      case BytesFrame(_) => Scan(work, replies, Fatal(RequestTypeError))
      case NullFrame => ScanFrom(rest[1..], work, replies)
      case ObjectFrame(request) =>
        if request.command == CmdPut then
          if request.bodySize > 0 then
            if |rest| == 1 then
              ScanFrom([], work, replies + [Reply(Response(id := request.id), Some(EOF))])
            else
              match rest[1]
              case Malformed(e) =>
                Scan(work, replies + [Reply(Response(id := request.id), Some(e))], if Is(e, EOF) then AtEof else Fatal(e))
              case ObjectFrame(_) =>
                ScanFrom(rest[2..], work, replies + [Reply(Response(id := request.id), Some(BodyTypeError))])
              case BytesFrame(body) =>
                ScanFrom(rest[2..], work + [PutWork(request, body)], replies)
              case NullFrame =>
                ScanFrom(rest[2..], work + [PutWork(request, [])], replies)
          else ScanFrom(rest[1..], work + [PutWork(request, [])], replies)
        else if request.command == CmdGet then ScanFrom(rest[1..], work + [GetWork(request)], replies)
        else if request.command == CmdClose then Scan(work, replies + [Response(id := request.id)], AtClose)
        else ScanFrom(rest[1..], work, replies)
  }

  /** One work item against the store: its response, and the store afterwards. */
  function Execute(config: TierConfig, state: TierState, w: Work, keyConverter: Bytes -> string): (r: (TierState, Response))
    ensures r.1.id == w.request.id
    ensures r.0.entries == state.entries
    // a put hands the converted key, the OutputID, the body and the size to the store
    ensures w.PutWork? ==>
      var put := PutRequest(keyConverter(w.request.actionID), w.request.outputID, w.body, w.request.bodySize);
      var (files, result) := TieredPut(state.files, config.faults, config.dir, put);
      r.0 == TierState(files, state.entries, state.pending + [put]) &&
      (r.1.err == "" <==> result.err.None?) &&
      // the response carries the local path of a stored record, and the store's error text
      (result.err.None? ==> r.1.diskPath == PathJoin(config.dir, put.key)) &&
      (result.err.Some? ==> r.1.diskPath == "" && r.1.err == Message(result.err.value)) &&
      !r.1.miss && r.1.outputID == [] && r.1.size == 0
    // a get reports a miss exactly when the store misses or fails, and a hit with its OutputID
    // and local path; a failure carries the store's error text
    ensures w.GetWork? ==>
      var (files, got) := TieredGet(state.files, config.faults, config.dir, state.entries, config.getFaults, keyConverter(w.request.actionID));
      r.0 == state.(files := files) && (r.1.miss <==> !got.ok) &&
      (!r.1.miss ==> r.1.err == "" && r.1.outputID == got.entry.outputID &&
                     r.1.diskPath == PathJoin(config.dir, keyConverter(w.request.actionID))) &&
      (r.1.miss ==> r.1.outputID == [] && r.1.diskPath == "") &&
      (got.err.Some? ==> r.1.err == Message(got.err.value)) &&
      (got.err.None? ==> r.1.err == "") &&
      // the size the store reports is copied into the response
      r.1.size == got.entry.bodySize
    // the store never reports a body size, so no response carries one
    ensures r.1.size == 0
  {
    var key := keyConverter(w.request.actionID);
    match w
    case GetWork(request) =>
      var (files, got) := TieredGet(state.files, config.faults, config.dir, state.entries, config.getFaults, key);
      var response := Response(id := request.id, miss := !got.ok, diskPath := got.entry.diskPath,
                               outputID := got.entry.outputID, size := got.entry.bodySize);
      (state.(files := files), Reply(response, got.err))
    case PutWork(request, body) =>
      var put := PutRequest(key, request.outputID, body, request.bodySize);
      var (files, result) := TieredPut(state.files, config.faults, config.dir, put);
      (state.(files := files, pending := state.pending + [put]), Reply(Response(id := request.id, diskPath := result.diskPath), result.err))
  }

  /** The work items run in order: one response per item, carrying its request's ID. */
  function ExecuteAll(config: TierConfig, state: TierState, work: seq<Work>, keyConverter: Bytes -> string)
    : (r: (TierState, seq<Response>))
    ensures |r.1| == |work|
    ensures forall k :: 0 <= k < |work| ==> r.1[k].id == work[k].request.id
    ensures r.0.entries == state.entries
  {
    if work == [] then (state, [])
    else
      var (before, responses) := ExecuteAll(config, state, work[..|work| - 1], keyConverter);
      var (after, last) := Execute(config, before, work[|work| - 1], keyConverter);
      assert forall k :: 0 <= k < |work| - 1 ==>
        (responses + [last])[k] == responses[k] && work[..|work| - 1][k] == work[k];
      (after, responses + [last])
  }

  /** Running one more item of `work` runs it on the store the items before it leave. */
  lemma ExecuteAllStep(config: TierConfig, state: TierState, work: seq<Work>, i: nat, keyConverter: Bytes -> string)
    requires i < |work|
    ensures var (before, responses) := ExecuteAll(config, state, work[..i], keyConverter);
      var (after, last) := Execute(config, before, work[i], keyConverter);
      ExecuteAll(config, state, work[..i + 1], keyConverter) == (after, responses + [last])
  {
    assert work[..i + 1][..i] == work[..i];
  }

  /** The store never reports a body size, so no response of a run carries one. */
  lemma {:induction false} ResponsesCarryNoSize(config: TierConfig, state: TierState, work: seq<Work>, keyConverter: Bytes -> string)
    ensures forall k :: 0 <= k < |work| ==> ExecuteAll(config, state, work, keyConverter).1[k].size == 0
    decreases |work|
  {
    if work != [] {
      var init := work[..|work| - 1];
      ResponsesCarryNoSize(config, state, init, keyConverter);
      var (before, responses) := ExecuteAll(config, state, init, keyConverter);
      var (after, last) := Execute(config, before, work[|work| - 1], keyConverter);
      assert ExecuteAll(config, state, work, keyConverter).1 == responses + [last];
    }
  }

  /** The store after `Close`: the detached puts delivered, then both tiers closed. */
  function Closed(config: TierConfig, state: TierState): (r: TierState)
    // the local tier is untouched, the queue is drained, and no external key is lost
    ensures r.files == state.files && r.pending == []
    ensures state.entries.Keys <= r.entries.Keys
    ensures forall key :: key in r.entries && key !in state.entries ==>
      exists i :: 0 <= i < |state.pending| && state.pending[i].key == key
  {
    TierState(state.files, Deliver(state.entries, config.putFaults, state.pending), [])
  }

  /** A whole run: the responses in the order they are written, the store afterwards, and the
      error that made the run panic, if any. */
  datatype Outcome = Outcome(responses: seq<Response>, state: TierState, fatal: Option<Error>)

  function Session(config: TierConfig, state: TierState, frames: seq<Frame>, keyConverter: Bytes -> string): (r: Outcome)
    ensures |r.responses| > 0 && r.responses[0] == Handshake
    ensures r.fatal.Some? <==> ScanFrom(frames, [], []).stop.Fatal?
    // a fatal decoding error stops everything: no work runs and the store is not closed
    ensures r.fatal.Some? ==> r.state == state && r.responses == [Handshake] + ScanFrom(frames, [], []).replies
    // otherwise every dispatched request is answered once, and the store is drained
    ensures r.fatal.None? ==>
      var scan := ScanFrom(frames, [], []);
      |r.responses| == 1 + |scan.replies| + |scan.work| && r.responses[..1 + |scan.replies|] == [Handshake] + scan.replies &&
      (forall k :: 0 <= k < |scan.work| ==> r.responses[1 + |scan.replies| + k].id == scan.work[k].request.id) &&
      r.state.pending == []
  {
    var scan := ScanFrom(frames, [], []);
    if scan.stop.Fatal? then Outcome([Handshake] + scan.replies, state, Some(scan.stop.err))
    else
      var (done, responses) := ExecuteAll(config, state, scan.work, keyConverter);
      Outcome([Handshake] + scan.replies + responses, Closed(config, done), None)
  }

  /** The lines written for `responses`: each followed by a newline. */
  function Lines(responses: seq<Response>): (r: seq<Written>)
    ensures |r| == |responses|
    ensures forall k :: 0 <= k < |r| ==> r[k] == Written(responses[k], [Newline])
  {
    seq(|responses|, k requires 0 <= k < |responses| => Written(responses[k], [Newline]))
  }

  // ---------------------------------------------------------------------------------------
  // Properties of a run

  /** A request together with the body frame that follows it when it is a put with a positive
      size. */
  datatype Item = Item(request: Request, body: Bytes)

  predicate IsWork(item: Item)
  {
    item.request.command == CmdGet || item.request.command == CmdPut
  }

  /** The frames a well-behaved client sends for `item`. */
  function EncodeItem(item: Item): seq<Frame>
  {
    if item.request.command == CmdPut && item.request.bodySize > 0 then [ObjectFrame(item.request), BytesFrame(item.body)]
    else [ObjectFrame(item.request)]
  }

  function Encode(items: seq<Item>): seq<Frame>
  {
    if items == [] then [] else EncodeItem(items[0]) + Encode(items[1..])
  }

  function WorkOf(item: Item): Work
  {
    if item.request.command == CmdGet then GetWork(item.request)
    else PutWork(item.request, if item.request.bodySize > 0 then item.body else [])
  }

  function WorksOf(items: seq<Item>): (r: seq<Work>)
    ensures |r| == |items|
  {
    seq(|items|, k requires 0 <= k < |items| => WorkOf(items[k]))
  }

  /** Each item's work item carries the item's request. */
  lemma WorksOfRequests(items: seq<Item>)
    ensures forall k :: 0 <= k < |items| ==> WorksOf(items)[k].request == items[k].request
  {
  }

  /** Reading the frames of one get or put request dispatches its work item and writes
      nothing. */
  lemma ScanItem(item: Item, rest: seq<Frame>, work: seq<Work>, replies: seq<Response>)
    requires IsWork(item)
    ensures ScanFrom(EncodeItem(item) + rest, work, replies) == ScanFrom(rest, work + [WorkOf(item)], replies)
  {
    var frames := EncodeItem(item) + rest;
    assert frames[0] == ObjectFrame(item.request);
    if item.request.command == CmdPut && item.request.bodySize > 0 {
      assert frames[1] == BytesFrame(item.body) && frames[2..] == rest;
    } else {
      assert frames[1..] == rest;
    }
  }

  /** Reading the frames of get and put requests dispatches one work item per request, writes
      nothing, and goes on with what follows. */
  lemma {:induction false} ScanEncoded(items: seq<Item>, tail: seq<Frame>, work: seq<Work>, replies: seq<Response>)
    requires forall k :: 0 <= k < |items| ==> IsWork(items[k])
    ensures ScanFrom(Encode(items) + tail, work, replies) == ScanFrom(tail, work + WorksOf(items), replies)
  {
    if items == [] {
      assert Encode(items) + tail == tail;
      assert work + WorksOf(items) == work;
    } else {
      var rest := Encode(items[1..]) + tail;
      assert Encode(items) + tail == EncodeItem(items[0]) + rest;
      ScanItem(items[0], rest, work, replies);
      ScanEncoded(items[1..], tail, work + [WorkOf(items[0])], replies);
      WorksOfCons(items, work);
    }
  }

  lemma WorksOfCons(items: seq<Item>, work: seq<Work>)
    requires items != []
    ensures work + [WorkOf(items[0])] + WorksOf(items[1..]) == work + WorksOf(items)
  {
    assert WorksOf(items) == [WorkOf(items[0])] + WorksOf(items[1..]);
  }

  /** Every get and put is answered exactly once, with its own ID, after the handshake (so
      4000 requests give 4001 lines). */
  lemma AnswersEveryRequest(config: TierConfig, state: TierState, items: seq<Item>, keyConverter: Bytes -> string)
    requires forall k :: 0 <= k < |items| ==> IsWork(items[k])
    ensures
      var out := Session(config, state, Encode(items), keyConverter);
      out.fatal.None? && |out.responses| == |items| + 1 && out.responses[0] == Handshake &&
      forall k :: 0 <= k < |items| ==> out.responses[k + 1].id == items[k].request.id
  {
    ScanEncoded(items, [], [], []);
    assert Encode(items) + [] == Encode(items);
    assert ScanFrom(Encode(items), [], []) == ScanFrom([], [] + WorksOf(items), []);
    SessionAnswersWork(config, state, Encode(items), WorksOf(items), keyConverter);
    WorksOfRequests(items);
  }

  /** Frames that dispatch `work` and reply nothing are answered by one response per work
      item, after the handshake. */
  lemma SessionAnswersWork(config: TierConfig, state: TierState, frames: seq<Frame>, work: seq<Work>, keyConverter: Bytes -> string)
    requires ScanFrom(frames, [], []) == Scan(work, [], AtEof)
    ensures
      var out := Session(config, state, frames, keyConverter);
      out.fatal.None? && |out.responses| == |work| + 1 && out.responses[0] == Handshake &&
      forall k :: 0 <= k < |work| ==> out.responses[k + 1].id == work[k].request.id
  {
  }

  /** `close` is answered and ends the reading: whatever follows it is never read. */
  lemma ScanStopsAtClose(items: seq<Item>, close: Request, rest: seq<Frame>)
    requires forall k :: 0 <= k < |items| ==> IsWork(items[k])
    requires close.command == CmdClose
    ensures ScanFrom(Encode(items) + [ObjectFrame(close)] + rest, [], []) == Scan(WorksOf(items), [Response(id := close.id)], AtClose)
  {
    assert Encode(items) + [ObjectFrame(close)] + rest == Encode(items) + ([ObjectFrame(close)] + rest);
    ScanEncoded(items, [ObjectFrame(close)] + rest, [], []);
    assert [] + WorksOf(items) == WorksOf(items);
  }

  /** A run that reaches `close` answers it and every request before it, and ignores what
      follows. */
  lemma CloseStopsReading(config: TierConfig, state: TierState, items: seq<Item>, close: Request,
                          rest: seq<Frame>, keyConverter: Bytes -> string)
    requires forall k :: 0 <= k < |items| ==> IsWork(items[k])
    requires close.command == CmdClose
    ensures Session(config, state, Encode(items) + [ObjectFrame(close)] + rest, keyConverter) ==
      Session(config, state, Encode(items) + [ObjectFrame(close)], keyConverter)
    ensures
      var out := Session(config, state, Encode(items) + [ObjectFrame(close)] + rest, keyConverter);
      out.fatal.None? && |out.responses| == |items| + 2 &&
      out.responses[0] == Handshake && out.responses[1] == Response(id := close.id)
  {
    ScanStopsAtClose(items, close, rest);
    ScanStopsAtClose(items, close, []);
    assert Encode(items) + [ObjectFrame(close)] + [] == Encode(items) + [ObjectFrame(close)];
    var out := Session(config, state, Encode(items) + [ObjectFrame(close)] + rest, keyConverter);
    assert out.responses[..2] == [Handshake, Response(id := close.id)];
    assert out.responses[1] == Response(id := close.id);
  }

  /** A frame the decoder rejects, where a request is expected, ends the run with that error:
      nothing is written after the handshake and the store is neither used nor closed. */
  lemma MalformedIsFatal(config: TierConfig, state: TierState, items: seq<Item>, e: Error,
                         rest: seq<Frame>, keyConverter: Bytes -> string)
    requires forall k :: 0 <= k < |items| ==> IsWork(items[k])
    requires !Is(e, EOF)
    ensures Session(config, state, Encode(items) + [Malformed(e)] + rest, keyConverter) == Outcome([Handshake], state, Some(e))
  {
    var tail := [Malformed(e)] + rest;
    var frames := Encode(items) + [Malformed(e)] + rest;
    assert frames == Encode(items) + tail;
    ScanEncoded(items, tail, [], []);
    assert tail[0] == Malformed(e);
    assert ScanFrom(frames, [], []) == Scan([] + WorksOf(items), [], Fatal(e));
    SessionPanicked(config, state, frames, keyConverter);
    assert Session(config, state, frames, keyConverter).responses == [Handshake] + [];
  }

  /** `null` in place of a request is skipped, however many there are. */
  lemma {:induction false} NullsSkipped(nulls: seq<Frame>, rest: seq<Frame>, work: seq<Work>, replies: seq<Response>)
    requires forall k :: 0 <= k < |nulls| ==> nulls[k] == NullFrame
    ensures ScanFrom(nulls + rest, work, replies) == ScanFrom(rest, work, replies)
    decreases |nulls|
  {
    if nulls == [] {
      assert nulls + rest == rest;
    } else {
      var frames := nulls + rest;
      assert frames[0] == NullFrame && frames[1..] == nulls[1..] + rest;
      assert ScanFrom(frames, work, replies) == ScanFrom(nulls[1..] + rest, work, replies);
      NullsSkipped(nulls[1..], rest, work, replies);
    }
  }

  /** A request whose command is not get, put or close is read and produces no response. */
  lemma UnknownCommandSkipped(r: Request, rest: seq<Frame>, work: seq<Work>, replies: seq<Response>)
    requires r.command != CmdGet && r.command != CmdPut && r.command != CmdClose
    ensures ScanFrom([ObjectFrame(r)] + rest, work, replies) == ScanFrom(rest, work, replies)
  {
    assert ([ObjectFrame(r)] + rest)[1..] == rest;
  }

  /** `null` in place of a put's body is the empty body. */
  lemma NullBodyIsEmpty(put: Request, rest: seq<Frame>, work: seq<Work>, replies: seq<Response>)
    requires put.command == CmdPut && put.bodySize > 0
    ensures ScanFrom([ObjectFrame(put), NullFrame] + rest, work, replies) ==
      ScanFrom(rest, work + [PutWork(put, [])], replies)
  {
    assert ([ObjectFrame(put), NullFrame] + rest)[2..] == rest;
  }

  /** A put whose body frame is not bytes is answered with the decoding error under the put's
      ID, and reading goes on after that frame. */
  lemma BadBodyIsAnswered(put: Request, other: Request, rest: seq<Frame>, work: seq<Work>, replies: seq<Response>)
    requires put.command == CmdPut && put.bodySize > 0
    ensures ScanFrom([ObjectFrame(put), ObjectFrame(other)] + rest, work, replies) ==
      ScanFrom(rest, work, replies + [Response(id := put.id, err := Message(BodyTypeError))])
  {
    assert ([ObjectFrame(put), ObjectFrame(other)] + rest)[2..] == rest;
  }

  /** The frames of a put with a body followed by a get dispatch both, in order. */
  lemma ScanPutGet(put: Request, body: Bytes, get: Request)
    requires put.command == CmdPut && put.bodySize > 0 && get.command == CmdGet
    ensures ScanFrom([ObjectFrame(put), BytesFrame(body), ObjectFrame(get)], [], []) ==
      Scan([PutWork(put, body), GetWork(get)], [], AtEof)
  {
    var putItem, getItem := Item(put, body), Item(get, []);
    ScanItem(getItem, [], [PutWork(put, body)], []);
    ScanItem(putItem, EncodeItem(getItem), [], []);
    assert [ObjectFrame(put), BytesFrame(body), ObjectFrame(get)] == EncodeItem(putItem) + EncodeItem(getItem);
    assert EncodeItem(getItem) + [] == EncodeItem(getItem);
  }

  /** One work item runs as `Execute` runs it. */
  lemma ExecuteOne(config: TierConfig, state: TierState, a: Work, keyConverter: Bytes -> string)
    ensures ExecuteAll(config, state, [a], keyConverter) ==
      (Execute(config, state, a, keyConverter).0, [Execute(config, state, a, keyConverter).1])
  {
    assert [a][..0] == [] && [a][0] == a;
    assert ExecuteAll(config, state, [], keyConverter) == (state, []);
    var r1 := Execute(config, state, a, keyConverter).1;
    assert [] + [r1] == [r1];
  }

  /** Two work items run one after the other. */
  lemma ExecuteTwo(config: TierConfig, state: TierState, a: Work, b: Work, keyConverter: Bytes -> string)
    ensures
      var (s1, r1) := Execute(config, state, a, keyConverter);
      var (s2, r2) := Execute(config, s1, b, keyConverter);
      ExecuteAll(config, state, [a, b], keyConverter) == (s2, [r1, r2])
  {
    assert [a, b][..1] == [a] && [a, b][1] == b;
    ExecuteOne(config, state, a, keyConverter);
    var (s1, r1) := Execute(config, state, a, keyConverter);
    var r2 := Execute(config, s1, b, keyConverter).1;
    assert [r1] + [r2] == [r1, r2];
  }

  /** A put followed by a get of the same key, on a filesystem that does not fail: the put
      answers with the file's path, the get with the put's OutputID, and closing the store
      delivers the put to the external tier. */
  lemma PutThenGetRuns(config: TierConfig, state: TierState, put: Request, body: Bytes, get: Request,
                       keyConverter: Bytes -> string)
    requires put.command == CmdPut && get.command == CmdGet && get.actionID == put.actionID
    requires keyConverter(put.actionID) != "" && Newline !in put.outputID
    requires config.faults == NoFaults && keyConverter(put.actionID) !in config.putFaults
    ensures
      var key := keyConverter(put.actionID);
      var (done, responses) := ExecuteAll(config, state, [PutWork(put, body), GetWork(get)], keyConverter);
      responses == [Response(id := put.id, diskPath := PathJoin(config.dir, key)),
                    Response(id := get.id, outputID := put.outputID, diskPath := PathJoin(config.dir, key))] &&
      key in Closed(config, done).entries &&
      Closed(config, done).entries[key] == Stored(PutRequest(key, put.outputID, body, put.bodySize))
  {
    var key := keyConverter(put.actionID);
    var work := [PutWork(put, body), GetWork(get)];
    ExecuteTwo(config, state, work[0], work[1], keyConverter);
    var request := PutRequest(key, put.outputID, body, put.bodySize);
    FsRoundTrip(state.files, config.faults, config.dir, request);
    var pending := state.pending + [request];
    assert Execute(config, state, work[0], keyConverter).0.pending == pending;
    assert pending[..|pending| - 1] == state.pending;
  }

  /** End to end: a put followed by a get of the same ActionID, on a filesystem that does not
      fail, answers the get with the put's OutputID and the file's path, and the external tier
      receives the same entry when the store is closed. */
  lemma PutThenGet(config: TierConfig, state: TierState, put: Request, body: Bytes, get: Request,
                   keyConverter: Bytes -> string)
    requires put.command == CmdPut && put.bodySize > 0 && get.command == CmdGet && get.actionID == put.actionID
    requires keyConverter(put.actionID) != "" && Newline !in put.outputID
    requires config.faults == NoFaults && keyConverter(put.actionID) !in config.putFaults
    ensures
      var key := keyConverter(put.actionID);
      var out := Session(config, state, [ObjectFrame(put), BytesFrame(body), ObjectFrame(get)], keyConverter);
      out.fatal.None? && |out.responses| == 3 &&
      out.responses[1] == Response(id := put.id, diskPath := PathJoin(config.dir, key)) &&
      out.responses[2] == Response(id := get.id, outputID := put.outputID, diskPath := PathJoin(config.dir, key)) &&
      key in out.state.entries && out.state.entries[key] == Stored(PutRequest(key, put.outputID, body, put.bodySize))
  {
    var frames := [ObjectFrame(put), BytesFrame(body), ObjectFrame(get)];
    var work := [PutWork(put, body), GetWork(get)];
    ScanPutGet(put, body, get);
    PutThenGetRuns(config, state, put, body, get, keyConverter);
    var (done, responses) := ExecuteAll(config, state, work, keyConverter);
    assert Session(config, state, frames, keyConverter) == Outcome([Handshake] + [] + responses, Closed(config, done), None);
  }

  lemma LinesAppend(responses: seq<Response>, last: Response)
    ensures Lines(responses + [last]) == Lines(responses) + [Written(last, [Newline])]
  {
  }

  lemma LinesConcat(a: seq<Response>, b: seq<Response>)
    ensures Lines(a + b) == Lines(a) + Lines(b)
  {
  }

  /** A run that panics: its lines are the handshake and the replies written while reading,
      and the store is left as it was, not closed. */
  lemma SessionPanicked(config: TierConfig, state: TierState, frames: seq<Frame>, keyConverter: Bytes -> string)
    requires ScanFrom(frames, [], []).stop.Fatal?
    ensures var scan := ScanFrom(frames, [], []);
      var outcome := Session(config, state, frames, keyConverter);
      outcome.fatal == Some(scan.stop.err) && outcome.state == state &&
      Lines(outcome.responses) == Lines([Handshake] + scan.replies)
  {
  }

  /** A run that does not panic: its lines are the handshake, the replies written while
      reading, then the responses of the dispatched work; the store is drained and closed. */
  lemma SessionFinished(config: TierConfig, state: TierState, frames: seq<Frame>, keyConverter: Bytes -> string,
                        written: seq<Written>)
    requires !ScanFrom(frames, [], []).stop.Fatal?
    ensures var scan := ScanFrom(frames, [], []);
      var (done, responses) := ExecuteAll(config, state, scan.work, keyConverter);
      var outcome := Session(config, state, frames, keyConverter);
      outcome.fatal == None && outcome.state == Closed(config, done) &&
      written + Lines(outcome.responses) == written + Lines([Handshake] + scan.replies) + Lines(responses)
  {
    var scan := ScanFrom(frames, [], []);
    var responses := ExecuteAll(config, state, scan.work, keyConverter).1;
    LinesConcat([Handshake] + scan.replies, responses);
  }

  class App {
    const keyConverter: Bytes -> string
    const storage: TieredStore
    /** What has been written to the output stream. */
    var output: seq<Written>

    constructor (keyConverter: Bytes -> string, storage: TieredStore)
      ensures this.keyConverter == keyConverter && this.storage == storage && output == []
    {
      this.keyConverter := keyConverter;
      this.storage := storage;
      output := [];
    }

    /** `resp`: writes the response, with the error's text when there is an error, and a
        newline. */
    method Respond(response: Response, err: Option<Error>)
      modifies this`output
      ensures output == old(output) + [Written(Reply(response, err), [Newline])]
    {
      var r := response;
      if err.Some? {
        r := r.(err := Message(err.value));
      }
      output := output + [Written(r, [Newline])];
    }

    /** The read loop: decodes frames, dispatches `get` and `put` requests, writes the
        responses due while reading, and stops at the end of the stream, at `close`, or at a
        decoding error that panics. */
    method Read(frames: seq<Frame>) returns (scan: Scan)
      modifies this`output
      ensures scan == ScanFrom(frames, [], [])
      ensures output == old(output) + Lines(scan.replies)
    {
      var rest, work, replies := frames, [], [];
      var stop: Option<Stop> := None;
      while stop.None?
        invariant stop.None? ==> ScanFrom(rest, work, replies) == ScanFrom(frames, [], [])
        invariant stop.Some? ==> Scan(work, replies, stop.value) == ScanFrom(frames, [], [])
        invariant output == old(output) + Lines(replies)
        decreases if stop.None? then |rest| + 1 else 0
      {
        if rest == [] {
          stop := Some(AtEof);
          continue;
        }
        match rest[0]
        case Malformed(e) =>
          stop := Some(if Is(e, EOF) then AtEof else Fatal(e));
        case BytesFrame(_) =>
          stop := Some(Fatal(RequestTypeError));
        case NullFrame =>
          rest := rest[1..];
        case ObjectFrame(request) =>
          if request.command == CmdPut {
            if request.bodySize > 0 {
              if |rest| == 1 {
                LinesAppend(replies, Reply(Response(id := request.id), Some(EOF)));
                Respond(Response(id := request.id), Some(EOF));
                replies, rest := replies + [Reply(Response(id := request.id), Some(EOF))], [];
              } else {
                match rest[1]
                case Malformed(e) =>
                  LinesAppend(replies, Reply(Response(id := request.id), Some(e)));
                  Respond(Response(id := request.id), Some(e));
                  replies := replies + [Reply(Response(id := request.id), Some(e))];
                  stop := Some(if Is(e, EOF) then AtEof else Fatal(e));
                case ObjectFrame(_) =>
                  LinesAppend(replies, Reply(Response(id := request.id), Some(BodyTypeError)));
                  Respond(Response(id := request.id), Some(BodyTypeError));
                  replies, rest := replies + [Reply(Response(id := request.id), Some(BodyTypeError))], rest[2..];
                case BytesFrame(body) =>
                  work, rest := work + [PutWork(request, body)], rest[2..];
                case NullFrame =>
                  work, rest := work + [PutWork(request, [])], rest[2..];
              }
            } else {
              work, rest := work + [PutWork(request, [])], rest[1..];
            }
          } else if request.command == CmdGet {
            work, rest := work + [GetWork(request)], rest[1..];
          } else if request.command == CmdClose {
            LinesAppend(replies, Response(id := request.id));
            Respond(Response(id := request.id), None);
            replies := replies + [Response(id := request.id)];
            stop := Some(AtClose);
          } else {
            rest := rest[1..];
          }
      }
      scan := Scan(work, replies, stop.value);
    }

    /** One detached work item: the store call and its response. */
    method Dispatch(w: Work) returns (response: Response)
      modifies this`output, storage`pending, storage.local.disk`files, storage.external`getCalls
      ensures (storage.State(), response) == Execute(storage.Config(), old(storage.State()), w, keyConverter)
      ensures output == old(output) + [Written(response, [Newline])]
    {
      var key := keyConverter(w.request.actionID);
      var base, err;
      match w {
        case GetWork(request) =>
          var got := storage.Get(key);
          base := Response(id := request.id, miss := !got.ok, diskPath := got.entry.diskPath,
                           outputID := got.entry.outputID, size := got.entry.bodySize);
          err := got.err;
        case PutWork(request, body) =>
          var result := storage.Put(PutRequest(key, request.outputID, body, request.bodySize));
          base, err := Response(id := request.id, diskPath := result.diskPath), result.err;
      }
      Respond(base, err);
      response := Reply(base, err);
    }

    /** The detached work items, run in the order they were dispatched; the source waits for
        all of them before it closes the store. */
    method Complete(work: seq<Work>) returns (responses: seq<Response>)
      modifies this`output, storage`pending, storage.local.disk`files, storage.external`getCalls
      ensures (storage.State(), responses) == ExecuteAll(storage.Config(), old(storage.State()), work, keyConverter)
      ensures output == old(output) + Lines(responses)
    {
      ghost var start := storage.State();
      var i := 0;
      responses := [];
      while i < |work|
        invariant 0 <= i <= |work|
        invariant (storage.State(), responses) == ExecuteAll(storage.Config(), start, work[..i], keyConverter)
        invariant output == old(output) + Lines(responses)
      {
        ExecuteAllStep(storage.Config(), start, work, i, keyConverter);
        var response := Dispatch(work[i]);
        LinesAppend(responses, response);
        responses := responses + [response];
        i := i + 1;
      }
      assert work[..i] == work;
    }

    /** What follows a read that did not panic: the dispatched work runs (`waitGroup.Wait`),
        then the store is closed once. */
    method Finish(work: seq<Work>)
      modifies this`output, storage`pending, storage.local.disk`files
      modifies storage.external`entries, storage.external`getCalls, storage.external`putCalls, storage.external`closeCalls
      ensures var (done, responses) := ExecuteAll(storage.Config(), old(storage.State()), work, keyConverter);
        output == old(output) + Lines(responses) && storage.State() == Closed(storage.Config(), done)
      ensures storage.external.closeCalls == old(storage.external.closeCalls) + 1
    {
      var responses := Complete(work);
      var ignored := storage.Close();
    }

    /** The start of `Run`: the handshake line, then the read loop. */
    method Begin(frames: seq<Frame>) returns (scan: Scan)
      modifies this`output
      ensures scan == ScanFrom(frames, [], [])
      ensures output == old(output) + Lines([Handshake] + scan.replies)
    {
      Respond(Handshake, None);
      scan := Read(frames);
      LinesConcat([Handshake], scan.replies);
      assert Lines([Handshake]) == [Written(Handshake, [Newline])];
    }

    /** `Run` over the input `frames`; returns the error it panics with, if any. */
    method Run(frames: seq<Frame>) returns (fatal: Option<Error>)
      modifies this`output, storage`pending, storage.local.disk`files
      modifies storage.external`entries, storage.external`getCalls, storage.external`putCalls, storage.external`closeCalls
      ensures fatal == Session(storage.Config(), old(storage.State()), frames, keyConverter).fatal
      ensures storage.State() == Session(storage.Config(), old(storage.State()), frames, keyConverter).state
      ensures output == old(output) + Lines(Session(storage.Config(), old(storage.State()), frames, keyConverter).responses)
      ensures storage.external.closeCalls == old(storage.external.closeCalls) + if fatal.None? then 1 else 0
    {
      ghost var config, start, written := storage.Config(), storage.State(), output;
      var scan := Begin(frames);
      if scan.stop.Fatal? {
        SessionPanicked(config, start, frames, keyConverter);
        return Some(scan.stop.err);
      }
      Finish(scan.work);
      SessionFinished(config, start, frames, keyConverter, written);
      fatal := None;
    }
  }
}
