/** The line-framed engine of main.go: it reads newline-terminated lines, answers `get`
    requests from the record files in a temporary directory, keeps `put` requests that carry a
    body in a FIFO until their body line arrives, and writes each response without a
    terminator. Every `get` and `put` goes through the counting wrapper of metric.go. */
module Legacy {
  import opened Base
  import opened Os
  import opened Metric

  const OpenBrace: byte := 123
  const Quote: byte := 34

  /** One lower-case hexadecimal digit. */
  function HexDigit(n: int): (c: char)
    requires 0 <= n < 16
    ensures '0' <= c <= '9' || 'a' <= c <= 'f'
  {
    if n < 10 then (('0' as int) + n) as char else (('a' as int) + n - 10) as char
  }

  /** `hex.EncodeToString`: two lower-case digits per byte, high nibble first. */
  function Hex(data: Bytes): (r: string)
    ensures |r| == 2 * |data|
    ensures forall i :: 0 <= i < |r| ==> '0' <= r[i] <= '9' || 'a' <= r[i] <= 'f'
  {
    if data == [] then ""
    else [HexDigit(data[0] as int / 16), HexDigit(data[0] as int % 16)] + Hex(data[1..])
  }

  /** Different bytes give different encodings, so different action IDs name different
      files. */
  lemma {:induction false} HexInjective(a: Bytes, b: Bytes)
    requires Hex(a) == Hex(b)
    ensures a == b
  {
    if a != [] {
      assert |b| == |a|;
      var x, y := a[0] as int, b[0] as int;
      assert Hex(a)[0] == HexDigit(x / 16) && Hex(a)[1] == HexDigit(x % 16);
      assert Hex(b)[0] == HexDigit(y / 16) && Hex(b)[1] == HexDigit(y % 16);
      assert x / 16 == y / 16 && x % 16 == y % 16;
      assert Hex(a)[2..] == Hex(a[1..]) && Hex(b)[2..] == Hex(b[1..]);
      HexInjective(a[1..], b[1..]);
      assert a == [a[0]] + a[1..] && b == [b[0]] + b[1..];
    }
  }

  /** `calcFileName`: `None` stands for the panic on empty data. */
  function CalcFileName(data: Bytes): (r: Option<string>)
    ensures r.None? <==> data == []
    ensures r.Some? ==> |r.value| == 2 * |data| && r.value == Hex(data)
  {
    if data == [] then None else Some(Hex(data))
  }

  /** The record file of an action ID under `dir`. */
  function FileOf(dir: string, actionID: Bytes): string
  {
    PathJoin(dir, Hex(actionID))
  }

  lemma DistinctActionsDistinctFiles(dir: string, a: Bytes, b: Bytes)
    requires a != [] && b != [] && a != b
    ensures FileOf(dir, a) != FileOf(dir, b)
  {
    if FileOf(dir, a) == FileOf(dir, b) {
      PathJoinInjective(dir, Hex(a), Hex(b));
      HexInjective(a, b);
    }
  }

  /** A handler's two results. */
  datatype Answer = Answer(response: Response, err: Option<Error>)

  /** `put`: what the handler leaves on disk and answers. */
  function LegacyPut(files: map<string, Bytes>, faults: Faults, dir: string, request: Request, body: Bytes)
    : (r: (map<string, Bytes>, Answer))
    ensures request.actionID == [] ==>
      r == (files, Answer(Response(id := request.id), Some(Failure("invalid action id"))))
    ensures r.1.err.None? ==>
      request.actionID != [] &&
      r.1.response == Response(id := request.id, diskPath := FileOf(dir, request.actionID)) &&
      r.0 == files[FileOf(dir, request.actionID) := RecordLayout(request.outputID, body)]
    ensures r.1.err.Some? ==> r.1.response == Response(id := request.id)
    ensures forall p :: p != FileOf(dir, request.actionID) ==>
      (p in r.0 <==> p in files) && (p in files ==> r.0[p] == files[p])
  {
    if request.actionID == [] then (files, Answer(Response(id := request.id), Some(Failure("invalid action id"))))
    else
      var path := FileOf(dir, request.actionID);
      var (files', err) := WriteRecordSpec(files, faults, path, request.outputID, body);
      (files', Answer(if err.None? then Response(id := request.id, diskPath := path) else Response(id := request.id), err))
  }

  /** `get` as main.go writes it: the OutputID is the first line of the record file with its
      newline. `None` stands for the panic of `calcFileName` on an empty action ID. */
  function GetAsWritten(files: map<string, Bytes>, faults: Faults, dir: string, request: Request)
    : (r: Option<Answer>)
    ensures r.None? <==> request.actionID == []
    ensures r.Some? ==>
      (r.value.response.miss <==> faults.stat.None? && FileOf(dir, request.actionID) !in files)
    ensures r.Some? && r.value.err.None? && !r.value.response.miss ==>
      FileOf(dir, request.actionID) in files &&
      FirstLine(files[FileOf(dir, request.actionID)]) == Some(r.value.response.outputID) &&
      r.value.response == Response(id := request.id, outputID := r.value.response.outputID, diskPath := FileOf(dir, request.actionID))
    // every answer carries the request's ID; a miss carries nothing else and no error
    ensures r.Some? ==> r.value.response.id == request.id
    ensures r.Some? && r.value.response.miss ==> r.value == Answer(Response(id := request.id, miss := true), None)
    // a failed stat, open or read is answered with its error and the bare ID
    ensures r.Some? && r.value.err.Some? ==>
      r.value.response == Response(id := request.id) &&
      ReadFirstLineSpec(files, faults, FileOf(dir, request.actionID)) == ReadFailed(r.value.err.value)
    ensures r.Some? && faults.stat.Some? ==> r.value.err == Some(faults.stat.value)
  {
    match CalcFileName(request.actionID)
    case None => None
    case Some(name) =>
      var path := PathJoin(dir, name);
      match ReadFirstLineSpec(files, faults, path)
      case Missing => Some(Answer(Response(id := request.id, miss := true), None))
      case ReadFailed(e) => Some(Answer(Response(id := request.id), Some(e)))
      case Line(line) => Some(Answer(Response(id := request.id, outputID := line, diskPath := path), None))
  }

  /** `get` as intended: the newline that ends the first line is not part of the OutputID,
      as in the filesystem store. */
  function LegacyGet(files: map<string, Bytes>, faults: Faults, dir: string, request: Request)
    : (r: Option<Answer>)
    ensures r.None? <==> request.actionID == []
    ensures r.Some? ==>
      (r.value.response.miss <==> faults.stat.None? && FileOf(dir, request.actionID) !in files)
    ensures r.Some? && r.value.err.None? && !r.value.response.miss ==>
      FileOf(dir, request.actionID) in files &&
      FirstLine(files[FileOf(dir, request.actionID)]) == Some(r.value.response.outputID + [Newline]) &&
      r.value.response == Response(id := request.id, outputID := r.value.response.outputID, diskPath := FileOf(dir, request.actionID))
    // every answer carries the request's ID; a miss carries nothing else and no error
    ensures r.Some? ==> r.value.response.id == request.id
    ensures r.Some? && r.value.response.miss ==> r.value == Answer(Response(id := request.id, miss := true), None)
    // a failed stat, open or read is answered with its error and the bare ID
    ensures r.Some? && r.value.err.Some? ==>
      r.value.response == Response(id := request.id) &&
      ReadFirstLineSpec(files, faults, FileOf(dir, request.actionID)) == ReadFailed(r.value.err.value)
    ensures r.Some? && faults.stat.Some? ==> r.value.err == Some(faults.stat.value)
  {
    match CalcFileName(request.actionID)
    case None => None
    case Some(name) =>
      var path := PathJoin(dir, name);
      match ReadFirstLineSpec(files, faults, path)
      case Missing => Some(Answer(Response(id := request.id, miss := true), None))
      case ReadFailed(e) => Some(Answer(Response(id := request.id), Some(e)))
      case Line(line) =>
        assert line == line[..|line| - 1] + [Newline];
        Some(Answer(Response(id := request.id, outputID := line[..|line| - 1], diskPath := path), None))
  }

  /** After a successful put, a get of the same action ID answers the stored OutputID and the
      file's path. */
  lemma LegacyRoundTrip(files: map<string, Bytes>, faults: Faults, dir: string, put: Request, body: Bytes, get: Request)
    requires put.actionID == get.actionID && Newline !in put.outputID
    requires faults.stat.None? && faults.open.None?
    requires LegacyPut(files, faults, dir, put, body).1.err.None?
    ensures LegacyGet(LegacyPut(files, faults, dir, put, body).0, faults, dir, get) ==
      Some(Answer(Response(id := get.id, outputID := put.outputID, diskPath := FileOf(dir, get.actionID)), None))
  {
    RecordFirstLine(put.outputID, body);
    var line := put.outputID + [Newline];
    assert line[..|line| - 1] == put.outputID;
  }

  /** The same round trip through `get` as written answers the OutputID with a newline
      appended, which is not what was stored. */
  lemma GetKeepsNewline(files: map<string, Bytes>, faults: Faults, dir: string, put: Request, body: Bytes, get: Request)
    requires put.actionID == get.actionID && Newline !in put.outputID
    requires faults.stat.None? && faults.open.None?
    requires LegacyPut(files, faults, dir, put, body).1.err.None?
    ensures
      var got := GetAsWritten(LegacyPut(files, faults, dir, put, body).0, faults, dir, get);
      got == Some(Answer(Response(id := get.id, outputID := put.outputID + [Newline], diskPath := FileOf(dir, get.actionID)), None)) &&
      got.value.response.outputID != put.outputID
  {
    RecordFirstLine(put.outputID, body);
    var got := GetAsWritten(LegacyPut(files, faults, dir, put, body).0, faults, dir, get);
    assert |got.value.response.outputID| == |put.outputID| + 1;
  }

  /** A body line as the client sends it: the body as a JSON string, then a newline. */
  function QuotedLine(body: Bytes): Bytes
  {
    [Quote] + body + [Quote, Newline]
  }

  /** The body main.go takes from a body line: it drops the first byte and the last, which is
      the newline, so the closing quote stays. */
  function BodyOfLineAsWritten(line: Bytes): (r: Bytes)
    requires |line| >= 2
    ensures |r| == |line| - 2 && r == line[1..|line| - 1]
  {
    line[1..|line| - 1]
  }

  /** The body as intended: both quotes and the newline dropped. */
  function BodyOfLine(line: Bytes): (r: Bytes)
    ensures |line| >= 3 ==> |r| == |line| - 3 && r == line[1..|line| - 2]
  {
    if |line| >= 3 then line[1..|line| - 2] else []
  }

  lemma BodyRoundTrip(body: Bytes)
    ensures BodyOfLine(QuotedLine(body)) == body
  {
    var line := QuotedLine(body);
    assert line[1..|line| - 2] == body;
  }

  lemma BodyAsWrittenKeepsQuote(body: Bytes)
    ensures BodyOfLineAsWritten(QuotedLine(body)) == body + [Quote]
    ensures BodyOfLineAsWritten(QuotedLine(body)) != body
  {
    var line := QuotedLine(body);
    assert line[1..|line| - 1] == body + [Quote];
  }

  /** The bytes `bytes.TrimSpace` removes. */
  predicate IsAsciiSpace(b: byte)
  {
    b == 9 || b == 10 || b == 11 || b == 12 || b == 13 || b == 32
  }

  /** `bytes.TrimSpace` on ASCII white space: leading spaces dropped, then trailing ones. What
      is left is a prefix of the line without its leading white space (so a slice of the line),
      and starts and ends with non-space bytes. */
  function TrimSpace(line: Bytes): (r: Bytes)
    ensures |r| <= |TrimLeft(line)| && r == TrimLeft(line)[..|r|]
    ensures r != [] ==> !IsAsciiSpace(r[0]) && !IsAsciiSpace(r[|r| - 1])
  {
    var left := TrimLeft(line);
    var r := TrimRight(left);
    assert r != [] ==> r[0] == left[0];
    r
  }

  /** Only white space lies around what `TrimSpace` keeps. */
  lemma {:induction false} TrimSpaceBlankAround(line: Bytes)
    ensures forall k :: 0 <= k < |line| - |TrimLeft(line)| ==> IsAsciiSpace(line[k])
    ensures forall k :: |line| - |TrimLeft(line)| + |TrimSpace(line)| <= k < |line| ==> IsAsciiSpace(line[k])
  {
    var left := TrimLeft(line);
    var start := |line| - |left|;
    assert TrimSpace(line) == TrimRight(left);
    assert left == line[start..];
    forall k | start + |TrimRight(left)| <= k < |line|
      ensures IsAsciiSpace(line[k])
    {
      assert line[k] == left[k - start];
    }
  }

  /** Leading white space dropped: what is dropped is blank, and what is kept starts with a
      non-space byte. */
  function TrimLeft(line: Bytes): (r: Bytes)
    ensures |r| <= |line| && r == line[|line| - |r|..]
    ensures forall k :: 0 <= k < |line| - |r| ==> IsAsciiSpace(line[k])
    ensures r != [] ==> !IsAsciiSpace(r[0])
    decreases |line|
  {
    if line != [] && IsAsciiSpace(line[0]) then
      var r := TrimLeft(line[1..]);
      assert forall k :: 1 <= k < |line| ==> line[k] == line[1..][k - 1];
      r
    else line
  }

  /** Trailing white space dropped: what is dropped is blank, and what is kept ends with a
      non-space byte. */
  function TrimRight(line: Bytes): (r: Bytes)
    ensures |r| <= |line| && r == line[..|r|]
    ensures forall k :: |r| <= k < |line| ==> IsAsciiSpace(line[k])
    ensures r != [] ==> !IsAsciiSpace(r[|r| - 1])
    decreases |line|
  {
    if line != [] && IsAsciiSpace(line[|line| - 1]) then
      TrimRight(line[..|line| - 1])
    else line
  }

  /** A line `TrimSpace` empties: every byte of it is white space. */
  predicate IsBlankLine(line: Bytes)
  {
    forall i :: 0 <= i < |line| ==> IsAsciiSpace(line[i])
  }

  /** main.go skips a line when `len(bytes.TrimSpace(line)) == 0`: exactly the blank lines. */
  lemma {:induction false} TrimSpaceEmpty(line: Bytes)
    ensures TrimSpace(line) == [] <==> IsBlankLine(line)
    decreases |line|
  {
    if line != [] && IsAsciiSpace(line[0]) {
      TrimSpaceEmpty(line[1..]);
      assert IsBlankLine(line) <==> IsBlankLine(line[1..]) by {
        if IsBlankLine(line[1..]) {
          forall i | 0 <= i < |line| ensures IsAsciiSpace(line[i]) {
            if i > 0 { assert line[i] == line[1..][i - 1]; }
          }
        }
      }
    } else if line != [] {
      assert !IsBlankLine(line) by { assert !IsAsciiSpace(line[0]); }
      assert TrimLeft(line) == line;
      assert TrimRight(line) != [] by {
        TrimRightKeepsFirst(line);
      }
    }
  }

  /** Trailing spaces never reach a first byte that is not a space. */
  lemma {:induction false} TrimRightKeepsFirst(line: Bytes)
    requires line != [] && !IsAsciiSpace(line[0])
    ensures TrimRight(line) != [] && TrimRight(line)[0] == line[0]
    decreases |line|
  {
    if IsAsciiSpace(line[|line| - 1]) {
      assert |line| > 1;
      TrimRightKeepsFirst(line[..|line| - 1]);
    }
  }

  /** A line as `ReadBytes('\n')` returns it: one newline, at its end. */
  predicate IsLine(line: Bytes)
  {
    |line| > 0 && line[|line| - 1] == Newline && Newline !in line[..|line| - 1]
  }

  predicate RequestLine(line: Bytes)
  {
    IsLine(line) && line[0] == OpenBrace
  }

  predicate BodyLine(line: Bytes)
  {
    IsLine(line) && !IsBlankLine(line) && line[0] != OpenBrace
  }

  /** Reasons the process panics. */
  const DecodePanic := "json.Unmarshal failed"
  const NilElementPanic := "runtime error: invalid memory address or nil pointer dereference"
  const EmptyDataPanic := "calcFileName called with empty data"

  /** How a run ends: the input runs out, a `close` request exits the process, or a panic. */
  datatype End = EndOfInput | Exited | Panicked(reason: string)

  /** Which reading of a stored record and of a body line the loop uses: main.go's own
      (`get` keeps the newline, a body keeps its closing quote), or the intended one. */
  datatype Reading = AsWritten | Intended

  /** `get` under `reading`. */
  function GetBy(reading: Reading, files: map<string, Bytes>, faults: Faults, dir: string, request: Request): Option<Answer>
  {
    match reading
    case AsWritten => GetAsWritten(files, faults, dir, request)
    case Intended => LegacyGet(files, faults, dir, request)
  }

  /** The body taken from a body line under `reading`. */
  function BodyBy(reading: Reading, line: Bytes): Bytes
    requires |line| >= 2
  {
    match reading
    case AsWritten => BodyOfLineAsWritten(line)
    case Intended => BodyOfLine(line)
  }

  /** A line that is not blank holds a byte besides its newline. */
  lemma BodyLineLength(line: Bytes)
    requires |line| > 0 && line[|line| - 1] == Newline && !IsBlankLine(line)
    ensures |line| >= 2
  {
    var i :| 0 <= i < |line| && !IsAsciiSpace(line[i]);
    assert i != |line| - 1;
  }

  /** Everything a run depends on besides its input: the filesystem's faults, the temporary
      directory, `json.Unmarshal` of a request line (`None`: it fails) and the reading. */
  datatype Settings = Settings(faults: Faults, dir: string, decode: Bytes -> Option<Request>, reading: Reading)

  /** What a run leaves: the responses written, the files, the counters and how it ended. */
  datatype Served = Served(output: seq<Written>, files: map<string, Bytes>, counters: Counters, end: End)

  /** `resp`: the response with the error's text, and no terminator. */
  function Out(answer: Answer): Written
  {
    Written(Reply(answer.response, answer.err), [])
  }

  /** The main loop from the unread input `rest`, with the pending puts `queue`, the files,
      the counters and the responses written so far. */
  function ServeFrom(s: Settings, rest: Bytes, queue: seq<Request>, files: map<string, Bytes>, counters: Counters, output: seq<Written>)
    : (r: Served)
    ensures output <= r.output
    ensures Newline !in rest ==> r == Served(output, files, counters, EndOfInput)
    decreases |rest|
  {
    match FirstLine(rest)
    case None => Served(output, files, counters, EndOfInput)
    case Some(line) =>
      var next := rest[|line|..];
      if IsBlankLine(line) then ServeFrom(s, next, queue, files, counters, output)
      else if line[0] == OpenBrace then
        match s.decode(line)
        case None => Served(output, files, counters, Panicked(DecodePanic))
        case Some(request) =>
          if request.command == CmdGet then
            var counted := Count(counters, CmdGet);
            match GetBy(s.reading, files, s.faults, s.dir, request)
            case None => Served(output, files, counted, Panicked(EmptyDataPanic))
            case Some(answer) => ServeFrom(s, next, queue, files, counted, output + [Out(answer)])
          else if request.command == CmdPut then
            if request.bodySize == 0 then
              var (files', answer) := LegacyPut(files, s.faults, s.dir, request, []);
              ServeFrom(s, next, queue, files', Count(counters, CmdPut), output + [Out(answer)])
            else ServeFrom(s, next, queue + [request], files, counters, output)
          else if request.command == CmdClose then
            Served(output + [Written(Response(id := request.id), [])], files, counters, Exited)
          else ServeFrom(s, next, queue, files, counters, output)
      else if queue == [] then Served(output, files, counters, Panicked(NilElementPanic))
      else
        BodyLineLength(line);
        var request := queue[0];
        var (files', answer) := LegacyPut(files, s.faults, s.dir, request, BodyBy(s.reading, line));
        ServeFrom(s, next, queue[1..], files', Count(counters, request.command), output + [Out(answer)])
  }

  /** A whole run: the handshake, then the loop over the input with no pending puts. Every
      run's output starts with the handshake. */
  function Session(s: Settings, input: Bytes, files: map<string, Bytes>, counters: Counters): (r: Served)
    ensures |r.output| >= 1 && r.output[0] == Written(Handshake, [])
  {
    var r := ServeFrom(s, input, [], files, counters, [Written(Handshake, [])]);
    assert [Written(Handshake, [])] <= r.output;
    r
  }

  lemma NextLine(line: Bytes, rest: Bytes)
    requires IsLine(line)
    ensures FirstLine(line + rest) == Some(line)
    ensures (line + rest)[|line|..] == rest
  {
    FirstLineOfPrefix(line, rest);
  }

  /** A blank line changes nothing. */
  lemma BlankLineSkipped(s: Settings, line: Bytes, rest: Bytes, queue: seq<Request>, files: map<string, Bytes>, counters: Counters, output: seq<Written>)
    requires IsLine(line) && IsBlankLine(line)
    ensures ServeFrom(s, line + rest, queue, files, counters, output) == ServeFrom(s, rest, queue, files, counters, output)
  {
    NextLine(line, rest);
  }

  /** A request line whose command is not get, put or close is skipped: nothing is answered,
      counted, stored or queued. */
  lemma UnknownCommandSkipped(s: Settings, line: Bytes, rest: Bytes, request: Request, queue: seq<Request>, files: map<string, Bytes>, counters: Counters, output: seq<Written>)
    requires RequestLine(line) && s.decode(line) == Some(request)
    requires request.command != CmdGet && request.command != CmdPut && request.command != CmdClose
    ensures ServeFrom(s, line + rest, queue, files, counters, output) == ServeFrom(s, rest, queue, files, counters, output)
  {
    NextLine(line, rest);
  }

  /** A put with a body is queued at the back and answers nothing yet. */
  lemma PutIsQueued(s: Settings, line: Bytes, rest: Bytes, put: Request, queue: seq<Request>, files: map<string, Bytes>, counters: Counters, output: seq<Written>)
    requires RequestLine(line) && s.decode(line) == Some(put)
    requires put.command == CmdPut && put.bodySize != 0
    ensures ServeFrom(s, line + rest, queue, files, counters, output) == ServeFrom(s, rest, queue + [put], files, counters, output)
  {
    NextLine(line, rest);
  }

  /** A put without a body is stored and answered at once. */
  lemma EmptyPutAnswered(s: Settings, line: Bytes, rest: Bytes, put: Request, queue: seq<Request>, files: map<string, Bytes>, counters: Counters, output: seq<Written>)
    requires RequestLine(line) && s.decode(line) == Some(put)
    requires put.command == CmdPut && put.bodySize == 0
    ensures
      var (files', answer) := LegacyPut(files, s.faults, s.dir, put, []);
      ServeFrom(s, line + rest, queue, files, counters, output) ==
        ServeFrom(s, rest, queue, files', Count(counters, CmdPut), output + [Out(answer)])
  {
    NextLine(line, rest);
  }

  /** A body line completes the oldest pending put. */
  lemma BodyLineServesOldest(s: Settings, line: Bytes, rest: Bytes, queue: seq<Request>, files: map<string, Bytes>, counters: Counters, output: seq<Written>)
    requires BodyLine(line) && queue != []
    ensures |line| >= 2
    ensures
      var (files', answer) := LegacyPut(files, s.faults, s.dir, queue[0], BodyBy(s.reading, line));
      ServeFrom(s, line + rest, queue, files, counters, output) ==
        ServeFrom(s, rest, queue[1..], files', Count(counters, queue[0].command), output + [Out(answer)])
  {
    BodyLineLength(line);
    NextLine(line, rest);
  }

  /** A body line with no pending put crashes the process. */
  lemma BodyLineWithoutPutPanics(s: Settings, line: Bytes, rest: Bytes, files: map<string, Bytes>, counters: Counters, output: seq<Written>)
    requires BodyLine(line)
    ensures ServeFrom(s, line + rest, [], files, counters, output) == Served(output, files, counters, Panicked(NilElementPanic))
  {
    NextLine(line, rest);
  }

  /** `close` answers with its ID and ends the run; nothing after it is read, and pending
      puts are dropped. */
  lemma CloseExits(s: Settings, line: Bytes, rest: Bytes, close: Request, queue: seq<Request>, files: map<string, Bytes>, counters: Counters, output: seq<Written>)
    requires RequestLine(line) && s.decode(line) == Some(close) && close.command == CmdClose
    ensures ServeFrom(s, line + rest, queue, files, counters, output) ==
      Served(output + [Written(Response(id := close.id), [])], files, counters, Exited)
  {
    NextLine(line, rest);
  }

  /** Two puts with bodies are queued in the order they arrive. */
  lemma TwoPutsQueue(s: Settings, l1: Bytes, l2: Bytes, rest: Bytes, p1: Request, p2: Request, files: map<string, Bytes>, counters: Counters, output: seq<Written>)
    requires RequestLine(l1) && RequestLine(l2)
    requires s.decode(l1) == Some(p1) && s.decode(l2) == Some(p2)
    requires p1.command == CmdPut && p2.command == CmdPut && p1.bodySize != 0 && p2.bodySize != 0
    ensures ServeFrom(s, l1 + (l2 + rest), [], files, counters, output) == ServeFrom(s, rest, [p1, p2], files, counters, output)
  {
    PutIsQueued(s, l1, l2 + rest, p1, [], files, counters, output);
    assert [] + [p1] == [p1];
    PutIsQueued(s, l2, rest, p2, [p1], files, counters, output);
    assert [p1] + [p2] == [p1, p2];
  }

  /** Two body lines complete the two pending puts, oldest first, and then the input ends. */
  lemma TwoBodiesServe(s: Settings, b1: Bytes, b2: Bytes, p1: Request, p2: Request, files: map<string, Bytes>, counters: Counters, output: seq<Written>)
    requires BodyLine(b1) && BodyLine(b2)
    ensures |b1| >= 2 && |b2| >= 2
    ensures
      var (files1, a1) := LegacyPut(files, s.faults, s.dir, p1, BodyBy(s.reading, b1));
      var (files2, a2) := LegacyPut(files1, s.faults, s.dir, p2, BodyBy(s.reading, b2));
      ServeFrom(s, b1 + (b2 + []), [p1, p2], files, counters, output) ==
        Served(output + [Out(a1), Out(a2)], files2, Count(Count(counters, p1.command), p2.command), EndOfInput)
  {
    BodyLineLength(b1);
    BodyLineLength(b2);
    var (files1, a1) := LegacyPut(files, s.faults, s.dir, p1, BodyBy(s.reading, b1));
    var (files2, a2) := LegacyPut(files1, s.faults, s.dir, p2, BodyBy(s.reading, b2));
    assert [p1, p2] == [p1] + [p2] && [p2] == [p2] + [];
    BodyLineServes(s, b1, b2 + [], p1, [p2], files, counters, output, files1, a1);
    BodyLineServes(s, b2, [], p2, [], files1, Count(counters, p1.command), output + [Out(a1)], files2, a2);
    assert output + [Out(a1)] + [Out(a2)] == output + [Out(a1), Out(a2)];
  }

  /** BodyLineServesOldest for a queue `[request] + queue`, with the put's outcome given. */
  lemma BodyLineServes(s: Settings, line: Bytes, rest: Bytes, request: Request, queue: seq<Request>, files: map<string, Bytes>, counters: Counters, output: seq<Written>,
                       files': map<string, Bytes>, answer: Answer)
    requires BodyLine(line) && |line| >= 2
    requires (files', answer) == LegacyPut(files, s.faults, s.dir, request, BodyBy(s.reading, line))
    ensures ServeFrom(s, line + rest, [request] + queue, files, counters, output) ==
      ServeFrom(s, rest, queue, files', Count(counters, request.command), output + [Out(answer)])
  {
    BodyLineServesOldest(s, line, rest, [request] + queue, files, counters, output);
    assert ([request] + queue)[0] == request && ([request] + queue)[1..] == queue;
  }

  /** The loop over two puts with bodies and their two body lines. */
  lemma TwoPutsServed(s: Settings, l1: Bytes, l2: Bytes, b1: Bytes, b2: Bytes, p1: Request, p2: Request, files: map<string, Bytes>, counters: Counters, output: seq<Written>)
    requires RequestLine(l1) && RequestLine(l2) && BodyLine(b1) && BodyLine(b2)
    requires s.decode(l1) == Some(p1) && s.decode(l2) == Some(p2)
    requires p1.command == CmdPut && p2.command == CmdPut && p1.bodySize != 0 && p2.bodySize != 0
    ensures |b1| >= 2 && |b2| >= 2
    ensures
      var (files1, a1) := LegacyPut(files, s.faults, s.dir, p1, BodyBy(s.reading, b1));
      var (files2, a2) := LegacyPut(files1, s.faults, s.dir, p2, BodyBy(s.reading, b2));
      ServeFrom(s, l1 + l2 + b1 + b2, [], files, counters, output) ==
        Served(output + [Out(a1), Out(a2)], files2, Count(Count(counters, CmdPut), CmdPut), EndOfInput)
  {
    assert l1 + l2 + b1 + b2 == l1 + (l2 + (b1 + (b2 + [])));
    TwoPutsQueue(s, l1, l2, b1 + (b2 + []), p1, p2, files, counters, output);
    TwoBodiesServe(s, b1, b2, p1, p2, files, counters, output);
  }

  /** Two successful puts of distinct actions leave both records. */
  lemma TwoPutsStored(files: map<string, Bytes>, dir: string, p1: Request, p2: Request, body1: Bytes, body2: Bytes)
    requires p1.actionID != [] && p2.actionID != [] && p1.actionID != p2.actionID
    ensures
      var (files1, a1) := LegacyPut(files, NoFaults, dir, p1, body1);
      var (files2, a2) := LegacyPut(files1, NoFaults, dir, p2, body2);
      var f1, f2 := FileOf(dir, p1.actionID), FileOf(dir, p2.actionID);
      Out(a1) == Written(Response(id := p1.id, diskPath := f1), []) &&
      Out(a2) == Written(Response(id := p2.id, diskPath := f2), []) &&
      f1 in files2 && f2 in files2 &&
      files2[f1] == RecordLayout(p1.outputID, body1) && files2[f2] == RecordLayout(p2.outputID, body2)
  {
    DistinctActionsDistinctFiles(dir, p1.actionID, p2.actionID);
    var (files1, a1) := LegacyPut(files, NoFaults, dir, p1, body1);
    assert a1.err.None?;
    assert LegacyPut(files1, NoFaults, dir, p2, body2).1.err.None?;
  }

  /** Two puts with bodies followed by two body lines: the first body goes to the first put,
      the second to the second, and the answers come in request order, under either reading. */
  lemma PendingPutsAreFifo(s: Settings, l1: Bytes, l2: Bytes, b1: Bytes, b2: Bytes, p1: Request, p2: Request, files: map<string, Bytes>, counters: Counters)
    requires RequestLine(l1) && RequestLine(l2) && BodyLine(b1) && BodyLine(b2)
    requires s.decode(l1) == Some(p1) && s.decode(l2) == Some(p2)
    requires p1.command == CmdPut && p2.command == CmdPut && p1.bodySize != 0 && p2.bodySize != 0
    requires p1.actionID != [] && p2.actionID != [] && p1.actionID != p2.actionID
    requires s.faults == NoFaults
    ensures |b1| >= 2 && |b2| >= 2
    ensures
      var r := Session(s, l1 + l2 + b1 + b2, files, counters);
      var f1, f2 := FileOf(s.dir, p1.actionID), FileOf(s.dir, p2.actionID);
      r.end == EndOfInput &&
      r.output == [Written(Handshake, []),
                   Written(Response(id := p1.id, diskPath := f1), []),
                   Written(Response(id := p2.id, diskPath := f2), [])] &&
      f1 in r.files && f2 in r.files &&
      r.files[f1] == RecordLayout(p1.outputID, BodyBy(s.reading, b1)) &&
      r.files[f2] == RecordLayout(p2.outputID, BodyBy(s.reading, b2)) &&
      r.counters.putCmd == Inc(Inc(counters.putCmd))
  {
    TwoPutsServed(s, l1, l2, b1, b2, p1, p2, files, counters, [Written(Handshake, [])]);
    TwoPutsStored(files, s.dir, p1, p2, BodyBy(s.reading, b1), BodyBy(s.reading, b2));
  }

  /** A get with an action ID is answered at once, from the files as they are. */
  lemma GetIsAnswered(s: Settings, line: Bytes, rest: Bytes, get: Request, queue: seq<Request>, files: map<string, Bytes>, counters: Counters, output: seq<Written>)
    requires RequestLine(line) && s.decode(line) == Some(get)
    requires get.command == CmdGet && get.actionID != []
    ensures GetBy(s.reading, files, s.faults, s.dir, get).Some?
    ensures ServeFrom(s, line + rest, queue, files, counters, output) ==
      ServeFrom(s, rest, queue, files, Count(counters, CmdGet), output + [Out(GetBy(s.reading, files, s.faults, s.dir, get).value)])
  {
    NextLine(line, rest);
  }

  /** A body sent as a JSON string on its own line is a body line. */
  lemma QuotedBodyLine(body: Bytes)
    requires Newline !in body
    ensures BodyLine(QuotedLine(body))
  {
    var line := QuotedLine(body);
    assert line[..|line| - 1] == [Quote] + body + [Quote];
    assert !IsAsciiSpace(line[0]);
  }

  /** A put followed by its body as a JSON string: the put is stored and answered; the body
      keeps its closing quote as written. */
  lemma QuotedBodyStored(s: Settings, l1: Bytes, body: Bytes, rest: Bytes, put: Request, files: map<string, Bytes>, counters: Counters, output: seq<Written>)
    requires RequestLine(l1) && s.decode(l1) == Some(put)
    requires put.command == CmdPut && put.bodySize != 0 && Newline !in body
    ensures
      var (files1, a1) := LegacyPut(files, s.faults, s.dir, put, if s.reading == AsWritten then body + [Quote] else body);
      ServeFrom(s, l1 + (QuotedLine(body) + rest), [], files, counters, output) ==
        ServeFrom(s, rest, [], files1, Count(counters, CmdPut), output + [Out(a1)])
  {
    var bodyLine := QuotedLine(body);
    QuotedBodyLine(body);
    PutIsQueued(s, l1, bodyLine + rest, put, [], files, counters, output);
    assert [] + [put] == [put];
    BodyLineServesOldest(s, bodyLine, rest, [put], files, counters, output);
    assert [put][1..] == [];
    BodyRoundTrip(body);
    BodyAsWrittenKeepsQuote(body);
  }

  /** A put of an action ID on a filesystem that does not fail stores the record and answers
      its path. */
  lemma PutStored(files: map<string, Bytes>, dir: string, put: Request, body: Bytes)
    requires put.actionID != []
    ensures
      var (files1, a1) := LegacyPut(files, NoFaults, dir, put, body);
      var f := FileOf(dir, put.actionID);
      Out(a1) == Written(Response(id := put.id, diskPath := f), []) &&
      f in files1 && files1[f] == RecordLayout(put.outputID, body)
  {
    assert LegacyPut(files, NoFaults, dir, put, body).1.err.None?;
  }

  /** A get after a stored put answers the OutputID, with the newline as written. */
  lemma GetAfterPut(reading: Reading, files: map<string, Bytes>, dir: string, put: Request, body: Bytes, get: Request)
    requires put.actionID != [] && put.actionID == get.actionID && Newline !in put.outputID
    ensures
      GetBy(reading, LegacyPut(files, NoFaults, dir, put, body).0, NoFaults, dir, get) ==
        Some(Answer(Response(id := get.id, diskPath := FileOf(dir, put.actionID),
                             outputID := if reading == AsWritten then put.outputID + [Newline] else put.outputID), None))
  {
    assert LegacyPut(files, NoFaults, dir, put, body).1.err.None?;
    if reading == AsWritten {
      GetKeepsNewline(files, NoFaults, dir, put, body, get);
    } else {
      LegacyRoundTrip(files, NoFaults, dir, put, body, get);
    }
  }

  /** The loop over a put, its body line and a get: two answers, then the end of the input. */
  lemma PutBodyGetServed(s: Settings, l1: Bytes, body: Bytes, l2: Bytes, put: Request, get: Request, files: map<string, Bytes>, counters: Counters, output: seq<Written>)
    requires RequestLine(l1) && RequestLine(l2)
    requires s.decode(l1) == Some(put) && s.decode(l2) == Some(get)
    requires put.command == CmdPut && put.bodySize != 0 && get.command == CmdGet
    requires get.actionID != [] && Newline !in body
    ensures
      var (files1, a1) := LegacyPut(files, s.faults, s.dir, put, if s.reading == AsWritten then body + [Quote] else body);
      var a2 := GetBy(s.reading, files1, s.faults, s.dir, get);
      a2.Some? &&
      ServeFrom(s, l1 + (QuotedLine(body) + (l2 + [])), [], files, counters, output) ==
        Served(output + [Out(a1), Out(a2.value)], files1, Count(Count(counters, CmdPut), CmdGet), EndOfInput)
  {
    QuotedBodyStored(s, l1, body, l2 + [], put, files, counters, output);
    var (files1, a1) := LegacyPut(files, s.faults, s.dir, put, if s.reading == AsWritten then body + [Quote] else body);
    GetIsAnswered(s, l2, [], get, [], files1, Count(counters, CmdPut), output + [Out(a1)]);
    var a2 := GetBy(s.reading, files1, s.faults, s.dir, get).value;
    assert output + [Out(a1)] + [Out(a2)] == output + [Out(a1), Out(a2)];
  }

  /** The loop over a put, its body line and a get of the same action on a filesystem that
      does not fail, with the stored body and the answered OutputID written out. */
  lemma PutBodyGetOutcome(s: Settings, l1: Bytes, body: Bytes, l2: Bytes, put: Request, get: Request, files: map<string, Bytes>, counters: Counters, output: seq<Written>)
    requires RequestLine(l1) && RequestLine(l2)
    requires s.decode(l1) == Some(put) && s.decode(l2) == Some(get)
    requires put.command == CmdPut && put.bodySize != 0 && get.command == CmdGet
    requires put.actionID != [] && put.actionID == get.actionID
    requires Newline !in put.outputID && Newline !in body
    requires s.faults == NoFaults
    ensures
      var f := FileOf(s.dir, put.actionID);
      var stored := if s.reading == AsWritten then body + [Quote] else body;
      var answered := if s.reading == AsWritten then put.outputID + [Newline] else put.outputID;
      ServeFrom(s, l1 + (QuotedLine(body) + (l2 + [])), [], files, counters, output) ==
        Served(output + [Written(Response(id := put.id, diskPath := f), []),
                         Written(Response(id := get.id, outputID := answered, diskPath := f), [])],
               files[f := RecordLayout(put.outputID, stored)], Count(Count(counters, CmdPut), CmdGet), EndOfInput)
  {
    var stored := if s.reading == AsWritten then body + [Quote] else body;
    PutBodyGetServed(s, l1, body, l2, put, get, files, counters, output);
    PutStored(files, s.dir, put, stored);
    GetAfterPut(s.reading, files, s.dir, put, stored, get);
  }

  /** A put, its body line, then a get of the same action, as main.go reads them: the file
      holds the body with its closing quote, and the get answers the OutputID with a newline. */
  lemma PutBodyThenGetAsWritten(s: Settings, l1: Bytes, body: Bytes, l2: Bytes, put: Request, get: Request, files: map<string, Bytes>, counters: Counters)
    requires RequestLine(l1) && RequestLine(l2)
    requires s.decode(l1) == Some(put) && s.decode(l2) == Some(get)
    requires put.command == CmdPut && put.bodySize != 0 && get.command == CmdGet
    requires put.actionID != [] && put.actionID == get.actionID
    requires Newline !in put.outputID && Newline !in body
    requires s.faults == NoFaults && s.reading == AsWritten
    ensures
      var r := Session(s, l1 + QuotedLine(body) + l2, files, counters);
      var f := FileOf(s.dir, put.actionID);
      r.end == EndOfInput && f in r.files &&
      r.files[f] == RecordLayout(put.outputID, body + [Quote]) &&
      r.output == [Written(Handshake, []),
                   Written(Response(id := put.id, diskPath := f), []),
                   Written(Response(id := get.id, outputID := put.outputID + [Newline], diskPath := f), [])]
  {
    var out0 := [Written(Handshake, [])];
    assert l1 + QuotedLine(body) + l2 == l1 + (QuotedLine(body) + (l2 + []));
    PutBodyGetOutcome(s, l1, body, l2, put, get, files, counters, out0);
  }

  /** The same session as intended: the file holds the body and the get answers the
      OutputID that was put. */
  lemma PutBodyThenGetIntended(s: Settings, l1: Bytes, body: Bytes, l2: Bytes, put: Request, get: Request, files: map<string, Bytes>, counters: Counters)
    requires RequestLine(l1) && RequestLine(l2)
    requires s.decode(l1) == Some(put) && s.decode(l2) == Some(get)
    requires put.command == CmdPut && put.bodySize != 0 && get.command == CmdGet
    requires put.actionID != [] && put.actionID == get.actionID
    requires Newline !in put.outputID && Newline !in body
    requires s.faults == NoFaults && s.reading == Intended
    ensures
      var r := Session(s, l1 + QuotedLine(body) + l2, files, counters);
      var f := FileOf(s.dir, put.actionID);
      r.end == EndOfInput && f in r.files &&
      r.files[f] == RecordLayout(put.outputID, body) &&
      r.output == [Written(Handshake, []),
                   Written(Response(id := put.id, diskPath := f), []),
                   Written(Response(id := get.id, outputID := put.outputID, diskPath := f), [])]
  {
    var out0 := [Written(Handshake, [])];
    assert l1 + QuotedLine(body) + l2 == l1 + (QuotedLine(body) + (l2 + []));
    PutBodyGetOutcome(s, l1, body, l2, put, get, files, counters, out0);
  }

  /** The process: the temporary directory, the filesystem, the counters and standard
      output. */
  class Server {
    const dir: string
    const decode: Bytes -> Option<Request>
    const reading: Reading
    const disk: Disk
    const stat: Stat
    var output: seq<Written>

    constructor (dir: string, decode: Bytes -> Option<Request>, reading: Reading, disk: Disk)
      ensures this.dir == dir && this.decode == decode && this.reading == reading && this.disk == disk
      ensures fresh(stat) && stat.Snapshot() == Counters(0, 0) && output == []
    {
      this.dir := dir;
      this.decode := decode;
      this.reading := reading;
      this.disk := disk;
      stat := new Stat();
      output := [];
    }

    function Setup(): Settings
    {
      Settings(disk.faults, dir, decode, reading)
    }

    /** `resp`. */
    method Respond(response: Response, err: Option<Error>)
      modifies this`output
      ensures output == old(output) + [Written(Reply(response, err), [])]
    {
      output := output + [Written(Reply(response, err), [])];
    }

    /** `metric(statistics, put)`: counts the request, then stores it. */
    method MeteredPut(request: Request, body: Bytes) returns (answer: Answer)
      modifies disk`files, stat
      ensures stat.Snapshot() == Count(old(stat.Snapshot()), request.command)
      ensures (disk.files, answer) == LegacyPut(old(disk.files), disk.faults, dir, request, body)
    {
      stat.Record(request.command);
      if request.actionID == [] {
        return Answer(Response(id := request.id), Some(Failure("invalid action id")));
      }
      var path := PathJoin(dir, CalcFileName(request.actionID).value);
      var err := disk.WriteRecord(path, request.outputID, body);
      answer := Answer(if err.None? then Response(id := request.id, diskPath := path) else Response(id := request.id), err);
    }

    /** `metric(statistics, get)`: counts the request, then looks it up; `None` is the panic
        on an empty action ID. */
    method MeteredGet(request: Request) returns (answer: Option<Answer>)
      modifies stat
      ensures stat.Snapshot() == Count(old(stat.Snapshot()), request.command)
      ensures answer == GetBy(reading, disk.files, disk.faults, dir, request)
    {
      stat.Record(request.command);
      var name := CalcFileName(request.actionID);
      if name.None? {
        return None;
      }
      var path := PathJoin(dir, name.value);
      var read := disk.ReadFirstLine(path);
      match read {
        case Missing =>
          answer := Some(Answer(Response(id := request.id, miss := true), None));
        case ReadFailed(e) =>
          answer := Some(Answer(Response(id := request.id), Some(e)));
        case Line(line) =>
          var outputID := if reading == AsWritten then line else line[..|line| - 1];
          answer := Some(Answer(Response(id := request.id, outputID := outputID, diskPath := path), None));
      }
    }

    /** `main`: the handshake, then one line at a time until the input ends, a `close`
        arrives or the process panics. */
    method Serve(input: Bytes) returns (end: End)
      modifies this`output, disk`files, stat
      ensures
        var r := Session(Setup(), input, old(disk.files), old(stat.Snapshot()));
        output == old(output) + r.output && disk.files == r.files && stat.Snapshot() == r.counters && end == r.end
    {
      ghost var setup := Setup();
      ghost var goal := Session(setup, input, disk.files, stat.Snapshot());
      Respond(Handshake, None);
      ghost var sent := [Written(Handshake, [])];
      var rest := input;
      var queue: seq<Request> := [];
      while true
        invariant output == old(output) + sent
        invariant ServeFrom(setup, rest, queue, disk.files, stat.Snapshot(), sent) == goal
        decreases |rest|
      {
        var first := FirstLine(rest);
        if first.None? {
          return EndOfInput;
        }
        var line := first.value;
        rest := rest[|line|..];
        if IsBlankLine(line) {
          continue;
        }
        if line[0] == OpenBrace {
          var decoded := decode(line);
          if decoded.None? {
            return Panicked(DecodePanic);
          }
          var request := decoded.value;
          if request.command == CmdGet {
            var answer := MeteredGet(request);
            if answer.None? {
              return Panicked(EmptyDataPanic);
            }
            Respond(answer.value.response, answer.value.err);
            sent := sent + [Out(answer.value)];
          } else if request.command == CmdPut {
            if request.bodySize == 0 {
              var answer := MeteredPut(request, []);
              Respond(answer.response, answer.err);
              sent := sent + [Out(answer)];
            } else {
              queue := queue + [request];
            }
          } else if request.command == CmdClose {
            Respond(Response(id := request.id), None);
            sent := sent + [Written(Response(id := request.id), [])];
            return Exited;
          }
        } else {
          if queue == [] {
            return Panicked(NilElementPanic);
          }
          BodyLineLength(line);
          var request := queue[0];
          queue := queue[1..];
          var answer := MeteredPut(request, BodyBy(reading, line));
          Respond(answer.response, answer.err);
          sent := sent + [Out(answer)];
        }
      }
    }
  }
}
