/** The local filesystem store: one file `dir/key` per entry, holding the OutputID, a newline
    and the body. */
module FileSystemStore {
  import opened Base
  import opened Os

  /** The empty key names the store's directory itself: `path.Join(dir, "")` is `dir`, which
      `os.MkdirAll` created. (With an empty directory name the path is "", which does not
      exist.) */
  predicate NamesDirectory(dir: string, key: string)
  {
    key == "" && dir != ""
  }

  /** What `Get(key)` returns on a filesystem whose files and faults are given. */
  function FsGet(files: map<string, Bytes>, faults: Faults, dir: string, key: string): (r: GetResult)
    ensures r == Miss <==> !NamesDirectory(dir, key) && faults.stat.None? && PathJoin(dir, key) !in files
    ensures r.ok ==>
      r.err.None? && PathJoin(dir, key) in files &&
      FirstLine(files[PathJoin(dir, key)]) == Some(r.entry.outputID + [Newline]) &&
      r.entry == Entry(outputID := r.entry.outputID, diskPath := PathJoin(dir, key))
    ensures !r.ok ==> r.entry == Entry()
    ensures r.err.None? && PathJoin(dir, key) in files ==> r.ok
    // a stat fault, and an open fault on a path that exists, are errors
    ensures faults.stat.Some? ==> r == Fail(faults.stat.value)
    ensures faults.stat.None? && faults.open.Some? && (NamesDirectory(dir, key) || PathJoin(dir, key) in files) ==>
      r == Fail(faults.open.value)
    // reading the directory is an error, never a miss
    ensures NamesDirectory(dir, key) ==> r.err.Some?
    ensures NamesDirectory(dir, key) && faults.stat.None? && faults.open.None? ==> r == Fail(IsDirectory(dir))
    ensures !NamesDirectory(dir, key) && faults.stat.None? && faults.open.None? &&
            PathJoin(dir, key) in files && Newline !in files[PathJoin(dir, key)] ==>
      r == Fail(EOF)
    // outside the directory, the answer is the first-line read of `dir/key`: a present file
    // holding a newline is a hit on the bytes before it, and every error is the read's error
    ensures !NamesDirectory(dir, key) && ReadFirstLineSpec(files, faults, PathJoin(dir, key)).Line? ==>
      r.ok && r.entry.outputID + [Newline] == ReadFirstLineSpec(files, faults, PathJoin(dir, key)).line
    ensures !NamesDirectory(dir, key) && r.err.Some? ==>
      ReadFirstLineSpec(files, faults, PathJoin(dir, key)) == ReadFailed(r.err.value)
  {
    var path := PathJoin(dir, key);
    if NamesDirectory(dir, key) then Fail(ReadDirectorySpec(faults, dir))
    else
      match ReadFirstLineSpec(files, faults, path)
      case Missing => Miss
      case ReadFailed(e) => Fail(e)
      case Line(line) =>
        assert line == line[..|line| - 1] + [Newline];
        GetResult(Entry(outputID := line[..|line| - 1], diskPath := path), true, None)
  }

  /** What `Put(request)` leaves on the filesystem and returns. */
  function FsPut(files: map<string, Bytes>, faults: Faults, dir: string, request: PutRequest)
    : (r: (map<string, Bytes>, PutResult))
    ensures request.key == "" ==> r == (files, PutResult("", Some(Failure("empty key"))))
    ensures r.1.err.None? ==>
      r.1.diskPath == PathJoin(dir, request.key) &&
      r.0 == files[PathJoin(dir, request.key) := RecordLayout(request.outputID, request.body)]
    ensures r.1.err.Some? ==> r.1.diskPath == ""
    ensures forall p :: p != PathJoin(dir, request.key) ==>
      (p in r.0 <==> p in files) && (p in files ==> r.0[p] == files[p])
  {
    if request.key == "" then (files, PutResult("", Some(Failure("empty key"))))
    else
      var path := PathJoin(dir, request.key);
      var (files', err) := WriteRecordSpec(files, faults, path, request.outputID, request.body);
      (files', PutResult(if err.None? then path else "", err))
  }

  /** The store over a directory of the filesystem `disk`. */
  class FileSystemStorage {
    const dir: string
    const disk: Disk

    constructor (dir: string, disk: Disk)
      ensures this.dir == dir && this.disk == disk
    {
      this.dir := dir;
      this.disk := disk;
    }

    /** Looks the key up: a miss when its file is absent, the bytes before the first newline
        of the file as the OutputID when it is present. */
    method Get(key: string) returns (r: GetResult)
      ensures r == FsGet(disk.files, disk.faults, dir, key)
    {
      if NamesDirectory(dir, key) {
        var err := disk.ReadDirectory(dir);
        return Fail(err);
      }
      var path := PathJoin(dir, key);
      var read := disk.ReadFirstLine(path);
      match read
      case Missing =>
        r := Miss;
      case ReadFailed(e) =>
        r := Fail(e);
      case Line(line) =>
        r := GetResult(Entry(outputID := line[..|line| - 1], diskPath := path), true, None);
    }

    /** Stores the entry in the file `dir/key`, replacing any earlier file. */
    method Put(request: PutRequest) returns (r: PutResult)
      modifies disk`files
      ensures (disk.files, r) == FsPut(old(disk.files), disk.faults, dir, request)
    {
      if request.key == "" {
        return PutResult("", Some(Failure("empty key")));
      }
      var path := PathJoin(dir, request.key);
      var err := disk.WriteRecord(path, request.outputID, request.body);
      r := PutResult(if err.None? then path else "", err);
    }

    /** Closing the store releases nothing and never fails. */
    method Close() returns (err: Option<Error>)
      ensures err.None?
    {
      err := None;
    }
  }

  /** Round trip: once `Put(k, o, b)` has succeeded, `Get(k)` hits with OutputID `o` at the path
      the put returned, provided `o` holds no newline. */
  lemma FsRoundTrip(files: map<string, Bytes>, faults: Faults, dir: string, request: PutRequest)
    requires Newline !in request.outputID
    requires faults.stat.None? && faults.open.None?
    requires FsPut(files, faults, dir, request).1.err.None?
    ensures
      var (files', put) := FsPut(files, faults, dir, request);
      FsGet(files', faults, dir, request.key) ==
        GetResult(Entry(outputID := request.outputID, diskPath := put.diskPath), true, None)
  {
    RecordFirstLine(request.outputID, request.body);
    var line := request.outputID + [Newline];
    assert line[..|line| - 1] == request.outputID;
  }

  /** An OutputID holding a newline does not survive the round trip: `Get` returns the part
      before its first newline. */
  lemma FsRoundTripTruncates(files: map<string, Bytes>, faults: Faults, dir: string, request: PutRequest)
    requires Newline in request.outputID
    requires faults.stat.None? && faults.open.None?
    requires FsPut(files, faults, dir, request).1.err.None?
    ensures
      var got := FsGet(FsPut(files, faults, dir, request).0, faults, dir, request.key);
      got.ok && |got.entry.outputID| < |request.outputID| &&
      got.entry.outputID == request.outputID[..|got.entry.outputID|]
  {
    RecordFirstLine(request.outputID, request.body);
  }

  /** A second `Put` to the same key replaces whatever the first left: `os.Create` truncates
      the file, whether or not the first put completed. */
  lemma FsOverwrite(files: map<string, Bytes>, faults: Faults, dir: string, first: PutRequest, second: PutRequest)
    requires first.key == second.key
    ensures FsPut(FsPut(files, faults, dir, first).0, faults, dir, second).0 == FsPut(files, faults, dir, second).0
  {
  }

  /** The store is not atomic: a write that fails inside the body leaves a file whose first
      line is complete, so a later `Get` hits with the new OutputID although the put reported an
      error. */
  lemma FsTornWriteVisible(files: map<string, Bytes>, faults: Faults, dir: string, request: PutRequest)
    requires request.key != "" && Newline !in request.outputID
    requires faults.stat.None? && faults.open.None? && faults.create.None?
    requires faults.write.Some?
    requires |request.outputID| + 1 <= faults.write.value.quota < |RecordLayout(request.outputID, request.body)|
    ensures
      var (files', put) := FsPut(files, faults, dir, request);
      put.err.Some? &&
      FsGet(files', faults, dir, request.key) ==
        GetResult(Entry(outputID := request.outputID, diskPath := PathJoin(dir, request.key)), true, None)
  {
    var c := RecordLayout(request.outputID, request.body);
    var torn := c[..faults.write.value.quota];
    var line := request.outputID + [Newline];
    assert torn == line + torn[|line|..];
    assert line[..|line| - 1] == request.outputID;
    FirstLineOfPrefix(line, torn[|line|..]);
  }
}
