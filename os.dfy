/** The operating-system filesystem as the stores see it: a map from path to file contents,
    with persistent error oracles standing for the failures `os.Stat`, `os.Open`, `os.Create`
    and `(*os.File).Write` can report. Both file-backed stores (filesystem_storage.go and the
    handlers of main.go) write a record file with the same four calls and read it back with the
    same three, so that sequence is modelled here once. */
module Os {
  import opened Base

  /** A write fault: a file accepts at most `quota` bytes; the write that would go past that
      stores what fits and fails with `err` (a full disk). */
  datatype WriteFault = WriteFault(err: Error, quota: nat)

  /** Error oracles; `None` means the call succeeds. */
  datatype Faults = Faults(
    stat: Option<Error> := None,
    open: Option<Error> := None,
    create: Option<Error> := None,
    write: Option<WriteFault> := None)

  const NoFaults := Faults()

  datatype StatResult = Exists | NotExist | StatFailed(err: Error)

  /** What reading a record file's first line gives. */
  datatype ReadResult = Missing | ReadFailed(err: Error) | Line(line: Bytes)

  /** `bufio.Reader.ReadBytes('\n')` from the start of `content`: the bytes up to and including
      the first newline, or `None` (the call fails with `io.EOF`) when there is no newline. */
  function FirstLine(content: Bytes): (r: Option<Bytes>)
    ensures r.None? <==> Newline !in content
    ensures r.Some? ==> 0 < |r.value| <= |content| && r.value == content[..|r.value|]
    ensures r.Some? ==> r.value[|r.value| - 1] == Newline && Newline !in r.value[..|r.value| - 1]
  {
    if |content| == 0 then None
    else if content[0] == Newline then Some([Newline])
    else
      match FirstLine(content[1..])
      case None => None
      case Some(rest) =>
        assert content == [content[0]] + content[1..];
        assert ([content[0]] + rest)[..|rest|] == [content[0]] + rest[..|rest| - 1];
        Some([content[0]] + rest)
  }

  /** The first line of `line + rest` is `line` when `line` holds exactly one newline, at its
      end. */
  lemma FirstLineOfPrefix(line: Bytes, rest: Bytes)
    requires |line| > 0 && line[|line| - 1] == Newline && Newline !in line[..|line| - 1]
    ensures FirstLine(line + rest) == Some(line)
  {
    var content := line + rest;
    assert content[|line| - 1] == Newline;
    var found := FirstLine(content).value;
    assert found == content[..|line|] == line;
  }

  /** The bytes of a record file: the OutputID, a newline, the body. */
  function RecordLayout(outputID: Bytes, body: Bytes): Bytes
  {
    outputID + [Newline] + body
  }

  /** Reading a record file back gives the OutputID up to its first newline: the whole OutputID
      when it holds no newline. */
  lemma RecordFirstLine(outputID: Bytes, body: Bytes)
    ensures Newline !in outputID ==> FirstLine(RecordLayout(outputID, body)) == Some(outputID + [Newline])
    ensures Newline in outputID ==>
      var l := FirstLine(RecordLayout(outputID, body)).value;
      |l| <= |outputID| && l == outputID[..|l|]
  {
    if Newline !in outputID {
      var line := outputID + [Newline];
      assert line[..|line| - 1] == outputID;
      assert RecordLayout(outputID, body) == line + body;
      FirstLineOfPrefix(line, body);
    } else {
      var c := RecordLayout(outputID, body);
      var l := FirstLine(c).value;
      var i :| 0 <= i < |outputID| && outputID[i] == Newline;
      assert c[i] == Newline;
      assert c[..|l|] == outputID[..|l|];
    }
  }

  /** `Write` under the quota: the new contents of a file holding `prior` after writing `data`,
      and the error, if any. */
  function Append(prior: Bytes, data: Bytes, fault: Option<WriteFault>): (r: (Bytes, Option<Error>))
    ensures r.1.None? <==> fault.None? || |prior| + |data| <= fault.value.quota
    ensures r.1.None? ==> r.0 == prior + data
    ensures r.1.Some? ==> fault.Some? && r.1 == Some(fault.value.err) && |prior| + |data| > fault.value.quota
    ensures r.1.Some? && |prior| <= fault.value.quota ==> r.0 == (prior + data)[..fault.value.quota]
  {
    if fault.None? || |prior| + |data| <= fault.value.quota then (prior + data, None)
    else
      var room := if fault.value.quota > |prior| then fault.value.quota - |prior| else 0;
      (prior + data[..room], Some(fault.value.err))
  }

  /** What `os.Create(path)` followed by `Write(outputID)`, `WriteString("\n")` and
      `io.Copy(body)` leaves on disk, and the error reported. A failed write leaves the file cut
      at the quota. */
  function WriteRecordSpec(files: map<string, Bytes>, faults: Faults, path: string, outputID: Bytes, body: Bytes)
    : (r: (map<string, Bytes>, Option<Error>))
    ensures r.1.None? ==> r.0 == files[path := RecordLayout(outputID, body)]
    ensures faults.create.Some? ==> r.0 == files && r.1 == Some(Wrapped("creating file: ", faults.create.value, ""))
    ensures faults.create.None? && r.1.Some? ==>
      faults.write.Some? && faults.write.value.quota < |RecordLayout(outputID, body)| &&
      r.0 == files[path := RecordLayout(outputID, body)[..faults.write.value.quota]] &&
      r.1 == Some(Wrapped("writing to file: ", faults.write.value.err, ""))
  {
    if faults.create.Some? then (files, Some(Wrapped("creating file: ", faults.create.value, "")))
    else
      var c := RecordLayout(outputID, body);
      if faults.write.Some? && faults.write.value.quota < |c| then
        (files[path := c[..faults.write.value.quota]], Some(Wrapped("writing to file: ", faults.write.value.err, "")))
      else (files[path := c], None)
  }

  /** Creating the file first does not change what the record write leaves: the file at
      `path` is replaced either way. */
  lemma WriteAfterCreate(files: map<string, Bytes>, faults: Faults, path: string, outputID: Bytes, body: Bytes)
    requires faults.create.None?
    ensures WriteRecordSpec(files[path := []], faults, path, outputID, body) == WriteRecordSpec(files, faults, path, outputID, body)
  {
    var c := RecordLayout(outputID, body);
    assert files[path := []][path := c] == files[path := c];
    if faults.write.Some? && faults.write.value.quota < |c| {
      var cut := c[..faults.write.value.quota];
      assert files[path := []][path := cut] == files[path := cut];
    }
  }

  /** What `os.Stat`, `os.Open` and `ReadBytes('\n')` on `path` give. */
  function ReadFirstLineSpec(files: map<string, Bytes>, faults: Faults, path: string): (r: ReadResult)
    ensures r.Missing? <==> faults.stat.None? && path !in files
    ensures faults.stat.Some? ==> r == ReadFailed(faults.stat.value)
    ensures faults.stat.None? && path in files && faults.open.Some? ==> r == ReadFailed(faults.open.value)
    ensures r.Line? ==> path in files && FirstLine(files[path]) == Some(r.line)
    ensures r.ReadFailed? && faults.stat.None? && faults.open.None? ==>
      path in files && Newline !in files[path] && r.err == EOF
  {
    if faults.stat.Some? then ReadFailed(faults.stat.value)
    else if path !in files then Missing
    else if faults.open.Some? then ReadFailed(faults.open.value)
    else
      match FirstLine(files[path])
      case None => ReadFailed(EOF)
      case Some(line) => Line(line)
  }

  /** The error `ReadBytes` reports on a file opened on a directory. */
  function IsDirectory(path: string): (e: Error)
    // a read error that names the path, and not the end of the file
    ensures Message(e) == "read " + path + ": is a directory"
    ensures !Is(e, EOF)
  {
    Failure("read " + path + ": is a directory")
  }

  /** What `os.Stat`, `os.Open` and `ReadBytes('\n')` on an existing directory give: stat and
      open succeed unless they fail, and the read always fails. */
  function ReadDirectorySpec(faults: Faults, path: string): (e: Error)
    ensures faults.stat.Some? ==> e == faults.stat.value
    ensures faults.stat.None? && faults.open.Some? ==> e == faults.open.value
    ensures faults.stat.None? && faults.open.None? ==> Message(e) == "read " + path + ": is a directory"
  {
    if faults.stat.Some? then faults.stat.value
    else if faults.open.Some? then faults.open.value
    else IsDirectory(path)
  }

  /** The filesystem: file contents by path, and the error oracles. */
  class Disk {
    var files: map<string, Bytes>
    const faults: Faults

    constructor (files: map<string, Bytes>, faults: Faults)
      ensures this.files == files && this.faults == faults
    {
      this.files := files;
      this.faults := faults;
    }

    /** `os.Stat(path)`. */
    method Stat(path: string) returns (r: StatResult)
      ensures faults.stat.Some? ==> r == StatFailed(faults.stat.value)
      ensures faults.stat.None? ==> r == if path in files then Exists else NotExist
    {
      if faults.stat.Some? {
        r := StatFailed(faults.stat.value);
      } else if path in files {
        r := Exists;
      } else {
        r := NotExist;
      }
    }

    /** `os.Open(path)` on an existing file. */
    method Open(path: string) returns (err: Option<Error>)
      ensures err == faults.open
    {
      err := faults.open;
    }

    /** `bufio.NewReader(file).ReadBytes('\n')`. */
    method ReadBytes(path: string) returns (line: Bytes, err: Option<Error>)
      requires path in files
      ensures err.None? <==> FirstLine(files[path]).Some?
      ensures err.None? ==> line == FirstLine(files[path]).value
      ensures err.Some? ==> err == Some(EOF)
    {
      var first := FirstLine(files[path]);
      if first.Some? {
        line, err := first.value, None;
      } else {
        line, err := [], Some(EOF);
      }
    }

    /** `os.Create(path)`: the file exists and is empty afterwards, unless creation fails. */
    method Create(path: string) returns (err: Option<Error>)
      modifies this`files
      ensures err == faults.create
      ensures err.None? ==> files == old(files)[path := []]
      ensures err.Some? ==> files == old(files)
    {
      err := faults.create;
      if err.None? {
        files := files[path := []];
      }
    }

    /** `file.Write(data)` to the end of an open file. */
    method Write(path: string, data: Bytes) returns (err: Option<Error>)
      requires path in files
      modifies this`files
      ensures path in files
      ensures (files[path], err) == Append(old(files)[path], data, faults.write)
      ensures files == old(files)[path := files[path]]
    {
      var r := Append(files[path], data, faults.write);
      files := files[path := r.0];
      err := r.1;
    }

    /** The record write both file stores perform: create the file, then write the OutputID,
        a newline and the body, stopping at the first failure. */
    method WriteRecord(path: string, outputID: Bytes, body: Bytes) returns (err: Option<Error>)
      modifies this`files
      ensures (files, err) == WriteRecordSpec(old(files), faults, path, outputID, body)
    {
      err := Create(path);
      if err.Some? {
        err := Some(Wrapped("creating file: ", err.value, ""));
        return;
      }
      err := WriteLayout(path, outputID, body);
      WriteAfterCreate(old(files), faults, path, outputID, body);
    }

    /** The three writes into the freshly created, empty file at `path`. */
    method WriteLayout(path: string, outputID: Bytes, body: Bytes) returns (err: Option<Error>)
      requires path in files && files[path] == [] && faults.create.None?
      modifies this`files
      ensures (files, err) == WriteRecordSpec(old(files), faults, path, outputID, body)
    {
      ghost var c := RecordLayout(outputID, body);
      assert [] + outputID == outputID;
      err := Write(path, outputID);
      if err.Some? {
        assert files[path] == c[..faults.write.value.quota];
        err := Some(Wrapped("writing to file: ", err.value, ""));
        return;
      }
      err := Write(path, [Newline]);
      assert files == old(files)[path := files[path]];
      if err.Some? {
        assert files[path] == outputID == c[..faults.write.value.quota];
        err := Some(Wrapped("writing to file: ", err.value, ""));
        return;
      }
      assert outputID + [Newline] + body == c;
      err := Write(path, body);
      assert files == old(files)[path := files[path]];
      if err.Some? {
        assert files[path] == c[..faults.write.value.quota];
        err := Some(Wrapped("writing to file: ", err.value, ""));
      } else {
        assert files[path] == c;
      }
    }

    /** The same three calls on a directory that exists. */
    method ReadDirectory(path: string) returns (err: Error)
      ensures err == ReadDirectorySpec(faults, path)
    {
      if faults.stat.Some? {
        return faults.stat.value;
      }
      var openErr := Open(path);
      if openErr.Some? {
        return openErr.value;
      }
      err := IsDirectory(path);
    }

    /** The record read both file stores perform: `os.Stat`, then `os.Open`, then
        `ReadBytes('\n')`. */
    method ReadFirstLine(path: string) returns (r: ReadResult)
      ensures r == ReadFirstLineSpec(files, faults, path)
    {
      var st := Stat(path);
      match st
      case StatFailed(e) =>
        r := ReadFailed(e);
      case NotExist =>
        r := Missing;
      case Exists =>
        var err := Open(path);
        if err.Some? {
          r := ReadFailed(err.value);
          return;
        }
        var line;
        line, err := ReadBytes(path);
        if err.Some? {
          r := ReadFailed(err.value);
        } else {
          r := Line(line);
        }
    }
  }
}
