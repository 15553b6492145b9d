# gocacheprog in Dafny

A verified model of the core of gocacheprog. gocacheprog is a cache-proxy daemon for the Go
toolchain's `GOCACHEPROG` protocol. It reads `get`, `put` and `close` requests, answers each one
from a key/value store, and writes one response per request after an initial handshake.

The model has one module per source file, plus two shared modules:

- `Base` (base.dfy): the shared values.
  - Bytes and Go's `int64`.
  - Go `error` values, with `fmt.Errorf` wrapping and `errors.Is`.
  - `Request`, `Response`, `Entry` and `PutRequest`.
  - `path.Join`.
- `Os` (os.dfy): the filesystem, as a class `Disk`.
  - Its files are a map from path to bytes. Persistent error oracles stand for the failures of `os.Stat`, `os.Open`, `os.Create` and `Write`.
  - A write fault is a quota: the write that crosses it stores what fits. So a failed write leaves a torn file, as a real full disk does.
  - Both file-backed stores write their record file the same way, so that write sequence is modelled once: create, then OutputID, then newline, then body. The matching read sequence is modelled once too: stat, open, `ReadBytes('\n')`.
- `FileSystemStore` (filesystem_storage.dfy): the local store.
  - One file `dir/key` holds the OutputID, a newline and the body.
- `RedisStore` (redis_storage.dfy): the Redis store.
  - `strings.TrimSpace` of the prefix.
  - `keyNames`.
  - The meta record and its encoding.
  - `get`, `Get`, `Put` and `Close` over a cluster class whose key space is a map.
- `Tiered` (decorator_storage.dfy): the decorator store. The local store sits in front of an external store.
  - The external store is any store with a map of entries, error oracles and call counters.
  - `Put` queues the detached external put; `Close` drains that queue.
- `Engine` (app.dfy): the JSON-stream protocol engine.
  - The input is a sequence of decoded JSON values (frames): objects, strings, `null`, or text that does not decode.
  - `Read` is the decode loop, proved against the tail-recursive `ScanFrom`.
  - `Run` is the whole run, proved against `Session`.
  - The work items that app.go runs as goroutines are collected while reading and run in dispatch order where the source waits for them (`waitGroup.Wait`). Then the store is closed.
- `Metric` (metric.dfy): the `stat` counters and the counting step of `metric`, with int64 wrap-around.
- `Legacy` (legacy.dfy): the line-framed engine of main.go.
  - Lines are classified as blank, request or body.
  - Puts that carry a body wait in the `pendingPutRequests` FIFO until their body line arrives.
  - `put`, `get`, `resp` and `calcFileName` sit behind the counting wrapper.
  - `Server.Serve` is proved against the tail-recursive `ServeFrom`.
  - Both run under a `Reading`: main.go's own reading of a stored record and of a body line, or the corrected one (see Findings).

Each state-changing operation is a method of a class, proved against a function of the old
state, such as `(disk.files, r) == FsPut(old(disk.files), ...)`. The lemmas state the
properties of those functions:
- round trips of every store;
- the tiering rules;
- that no detached put is lost at close;
- one answer per request;
- what `close` and framing errors do;
- the FIFO pairing of legacy puts and bodies;
- counter totals.

### Behaviour of the code that the model makes explicit

- **Close.** app.go:79-82 writes the `close` response first. Only then does app.go:84-88 wait for the outstanding work and close the store. The store's close error goes to standard error (app.go:87), never into a response.
- **Entry layout.** filesystem_storage.go:44-68 keeps one file per key, holding the OutputID, a newline and the body. It writes that file in place, with `os.Create` and three writes. So a failed write leaves a torn file, and a later `Get` can hit on it (`FileSystemStore.FsTornWriteVisible`). The `DiskPath` the store returns names the whole file, header included.
- **Reported size.** The local store's `Get` never fills in `BodySize` (filesystem_storage.go:36). So every get answered through the tiered store reports `Size` 0 (app.go:74), even after a backfill from an external entry with a size (`Engine.ResponsesCarryNoSize`). The engine is modelled over the tiered store only; over a Redis store the reported size would be the stored one (see "## Left out").
- **Size checks.** No store compares `BodySize` with the length of the body.
- **The empty key.** `path.Join(dir, "")` is `dir` itself (filesystem_storage.go:23), which `os.MkdirAll` created (filesystem_storage.go:18). So a get of the empty key reads a directory and fails with "is a directory": an error, not a miss.
- **Metrics.** metric.go counts only `get` and `put` requests, and only main.go uses it.

## Model

| member | source | states |
|---|---|---|
| Base.Reply | app.go:91-94 | the response carries the error's text exactly when there is an error, and is otherwise unchanged |
| Base.PathJoinInjective | filesystem_storage.go:23 | `path.Join(dir, k)` is injective in a non-empty name, so different keys have different files |
| Base.PathJoinShape | filesystem_storage.go:48 | the joined path is `dir/name`, or `name` when the directory is empty |
| Base.PathJoin | filesystem_storage.go:23 | joining the empty name gives the directory itself; the path is empty only when both parts are |
| Base.JoinEmpty | filesystem_storage.go:23 | the joined path is empty exactly when every segment is |
| Base.JoinEndsWithLast | filesystem_storage.go:23 | the joined path ends with its last segment, when that is not empty |
| Base.Message | app.go:94 | `err.Error()`: a leaf prints its text; a wrap prints its format text, then the cause's text, then the rest of the format; a join prints the first operand's text and a space first |
| Base.OperandText | decorator_storage.go:87 | a nil `%w` operand prints as `%!w(<nil>)`, so an operand prints as nothing only when it is an error whose text is empty |
| Base.Is | redis_storage.go:55-63 | `errors.Is`: every error is itself, and a leaf error is nothing else |
| Base.IsTransitive | redis_storage.go:55-63 | an error that wraps one that wraps the target wraps the target |
| Os.FirstLine | filesystem_storage.go:30 | `ReadBytes('\n')` gives the prefix up to and including the first newline, and fails exactly when there is no newline |
| Os.RecordFirstLine | filesystem_storage.go:30-36 | the first line of a record file is the OutputID plus a newline when the OutputID holds no newline, and a prefix of the OutputID otherwise |
| Os.Append | filesystem_storage.go:54-65 | a write succeeds exactly when it fits the quota and then appends all its data; a failing write keeps only what fits |
| Os.WriteRecordSpec | filesystem_storage.go:49-66 | on success the file holds OutputID, newline, body; a create failure changes nothing and is wrapped as "creating file: "; a write failure leaves the file cut at the quota and is wrapped as "writing to file: " |
| Os.ReadFirstLineSpec | filesystem_storage.go:24-41 | a miss exactly when stat succeeds and the file is absent; a stat fault is that error, and so is an open fault on a file that exists; a line is the file's first line; with no stat or open fault, the only failure is EOF on a file without a newline |
| Os.ReadDirectorySpec | filesystem_storage.go:24-33 | on a directory, a stat fault or an open fault is that error, and otherwise the read fails with "read <path>: is a directory" |
| Os.IsDirectory | filesystem_storage.go:30 | reading a directory fails with a read error naming the path that is not `io.EOF` |
| Os.Disk.ReadDirectory | filesystem_storage.go:24-33 | the three calls on a directory give what `ReadDirectorySpec` states |
| Os.Disk.Stat | filesystem_storage.go:24 | `os.Stat`: the stat fault, or whether the file exists |
| Os.Disk.Open | filesystem_storage.go:25 | `os.Open` reports the open fault |
| Os.Disk.ReadBytes | filesystem_storage.go:30 | returns the first line of the file, or `io.EOF` when it has no newline |
| Os.Disk.Create | filesystem_storage.go:49 | `os.Create` truncates the file to empty, or fails and changes nothing |
| Os.Disk.Write | filesystem_storage.go:54 | appends to one file under the quota; no other file changes |
| Os.Disk.WriteRecord | filesystem_storage.go:49-66 | the four calls leave the files and error that `WriteRecordSpec` states |
| Os.Disk.WriteLayout | filesystem_storage.go:54-66 | the three writes into the freshly created file leave what `WriteRecordSpec` states |
| Os.WriteAfterCreate | filesystem_storage.go:49 | truncating the file first does not change what the record write leaves |
| Os.Disk.ReadFirstLine | filesystem_storage.go:24-41 | the three calls give what `ReadFirstLineSpec` states |
| FileSystemStore.FsGet | filesystem_storage.go:22-42 | a miss exactly when the key names a file, stat succeeds and the file is absent; the empty key names the directory, whose read is an error ("is a directory" without other faults), never a miss; a stat fault, or an open fault on something that exists, is that error; a hit carries the bytes before the first newline as OutputID and the path `dir/key`; a present file without a newline is an `io.EOF` error, not a hit; outside the directory, a file whose first-line read succeeds is a hit on that line without its newline, and every error is exactly the error of that read |
| FileSystemStore.FsPut | filesystem_storage.go:44-68 | an empty key fails with "empty key" and writes nothing; success returns `dir/key`, and the file holds OutputID, newline, body; an error returns path ""; other files are untouched |
| FileSystemStore.FileSystemStorage.constructor | filesystem_storage.go:17-20 | the store keeps its directory |
| FileSystemStore.FileSystemStorage.Get | filesystem_storage.go:22-42 | reads the directory for the empty key and the file otherwise, returning `FsGet` of the current files |
| FileSystemStore.FileSystemStorage.Put | filesystem_storage.go:44-68 | leaves the files and returns what `FsPut` states |
| FileSystemStore.FileSystemStorage.Close | filesystem_storage.go:70-72 | never fails |
| FileSystemStore.FsRoundTrip | filesystem_storage.go:44-66 | after a successful put of an OutputID with no newline, get hits with that OutputID at the returned path |
| FileSystemStore.FsRoundTripTruncates | filesystem_storage.go:30-34 | an OutputID holding a newline comes back cut at its first newline |
| FileSystemStore.FsOverwrite | filesystem_storage.go:49 | a second put to a key replaces whatever the first left, since `os.Create` truncates |
| FileSystemStore.FsTornWriteVisible | filesystem_storage.go:54-65 | a put that fails inside the body still leaves a file that `Get` reports as a hit with the new OutputID |
| RedisStore.TrimLeft | redis_storage.go:28 | strips the longest all-space prefix, leaving a result that does not start with space |
| RedisStore.TrimRight | redis_storage.go:28 | strips the longest all-space suffix, leaving a result that does not end with space |
| RedisStore.TrimSpace | redis_storage.go:28 | `strings.TrimSpace`: empty exactly for blank input, and otherwise with non-space ends |
| RedisStore.TrimSpaceOf | redis_storage.go:28 | white space around a text that starts and ends with non-space trims to exactly that text |
| RedisStore.TrimSpaceIdempotent | redis_storage.go:28 | trimming a trimmed prefix changes nothing |
| RedisStore.IsSpace | redis_storage.go:28 | `unicode.IsSpace`, which `strings.TrimSpace` uses: in the Latin-1 range, exactly tab, newline, vertical tab, form feed, carriage return, space, U+0085 and U+00A0 |
| RedisStore.KeyNames | redis_storage.go:114-124 | the body and meta names always differ; for a non-empty key they are `gocacheprog/[prefix/]key-o` and `-i`, for the empty key `gocacheprog[/prefix]-o` and `-i` |
| RedisStore.KeyNameShape | redis_storage.go:115-120 | `path.Join` of the parts is `gocacheprog/key` with an empty prefix and `gocacheprog/prefix/key` otherwise |
| RedisStore.KeyNamesSeparate | redis_storage.go:114-124 | different keys share neither body nor meta name, and no body name is another key's meta name |
| RedisStore.EmptyKeyNamesSeparate | redis_storage.go:114-124 | the empty key's names, `gocacheprog[/prefix]-o` and `-i`, are no other key's names |
| RedisStore.BigEndianRoundTrip | redis_storage.go:97 | the fixed-width encoding of the size reads back as the size |
| RedisStore.MetaRoundTrip | redis_storage.go:74-97 | decoding an encoded meta record gives back its OutputID and size |
| RedisStore.EncodeMeta | redis_storage.go:97 | the stand-in for `json.Marshal` of the meta record: a tag, the size in eight bytes, then the OutputID |
| RedisStore.DecodeMeta | redis_storage.go:74 | the stand-in for `json.Unmarshal`: decodes only tagged records of at least nine bytes, giving their OutputID |
| RedisStore.ClusterGet | redis_storage.go:53-54 | a `GET` succeeds exactly for a stored key without a fault, with its value; a faulty `GET` reports its fault; an absent key without a fault gives `redis.Nil` |
| RedisStore.Cluster.Get | redis_storage.go:53 | returns `ClusterGet` of the key space |
| RedisStore.Cluster.Set | redis_storage.go:92-93 | stores the value unless the key's `SET` fails, and then changes nothing |
| RedisStore.Cluster.Close | redis_storage.go:111 | reports the cluster's close fault |
| RedisStore.RedisLookup | redis_storage.go:48-83 | a blank key is "empty key"; a hit needs both names present and a decodable meta record, and returns that record and the body; with no faults it is a clean miss exactly when either name is absent |
| RedisStore.RedisGet | redis_storage.go:31-46 | same error and hit flag as `get`; a hit carries the meta's OutputID and size, the body and no disk path |
| RedisStore.RedisPut | redis_storage.go:85-108 | a failed body `SET` changes nothing; a failed meta `SET` leaves the new body; success stores the body and the encoded meta; errors are wrapped as "redis set error: " with the key; the path is always ""; other names are untouched |
| RedisStore.RedisStorage.constructor | redis_storage.go:27-29 | the prefix is kept trimmed of surrounding white space |
| RedisStore.RedisStorage.Lookup | redis_storage.go:48-83 | returns `RedisLookup` of the key space |
| RedisStore.RedisStorage.Get | redis_storage.go:31-46 | returns `RedisGet` of the key space |
| RedisStore.RedisStorage.Put | redis_storage.go:85-108 | leaves the key space and returns what `RedisPut` states |
| RedisStore.RedisStorage.Close | redis_storage.go:110-112 | returns the cluster's close error |
| RedisStore.RedisRoundTrip | redis_storage.go:53-105 | after a successful put, get hits with the put's OutputID, size and body |
| RedisStore.RedisPutIsolated | redis_storage.go:85-111 | a put under one key, the empty key included, does not change what get returns for any other key |
| RedisStore.LookupReadsItsNames | redis_storage.go:47-83 | a lookup depends on the key space only through the `GET` replies for the key's body and meta names |
| RedisStore.GetReadsItsName | redis_storage.go:53-61 | a `GET` depends on the key space only at its own name |
| RedisStore.RedisTornPut | redis_storage.go:92-105 | when only the meta `SET` fails, get returns the old OutputID and size with the new body |
| Tiered.ExternalGet | decorator_storage.go:32 | the external tier fails for faulty keys, and otherwise hits exactly for stored keys, with the stored entry |
| Tiered.ExternalPut | decorator_storage.go:65 | the external tier stores the put's OutputID, size and body unless the key's put fails |
| Tiered.ExternalStore.constructor | decorator_storage.go:14-15 | a store with the given entries and faults, no calls yet |
| Tiered.ExternalStore.Get | decorator_storage.go:32 | returns `ExternalGet` and counts the call |
| Tiered.ExternalStore.Put | decorator_storage.go:65 | updates the entries as `ExternalPut` states and counts the call |
| Tiered.ExternalStore.Close | decorator_storage.go:83 | returns the close fault and counts the call |
| Tiered.TieredGet | decorator_storage.go:23-51 | a local hit is returned unchanged; a local error is wrapped, never a miss; a double miss changes nothing; an external error or a nil body is an error; an external hit is written locally; a failed local write is answered "failed to store response: " with the write's error, and a successful one with the local tier's re-read; every hit has disk path `dir/key`; anything but a hit carries the zero entry; no result carries a body size |
| Tiered.TieredPut | decorator_storage.go:54-78 | the local tier gets the local put; the result is the local path, or the local error wrapped as "could not store response: " |
| Tiered.Combine | decorator_storage.go:84-87 | nil exactly when both errors are nil; otherwise an error that `errors.Is` both, printed as `"<err1> <err2>"` |
| Tiered.TieredStore.constructor | decorator_storage.go:19-21 | both tiers, no pending puts |
| Tiered.TieredStore.Get | decorator_storage.go:23-52 | leaves the files and returns what `TieredGet` states; asks the external tier exactly once on a clean local miss and never otherwise |
| Tiered.TieredStore.Put | decorator_storage.go:54-78 | queues the external put and does the local put that `TieredPut` states |
| Tiered.TieredStore.Close | decorator_storage.go:80-88 | runs every pending external put in order, closes the external tier once, and returns the combined close errors |
| Tiered.TieredBackfill | decorator_storage.go:42-51 | a local miss with an external hit writes the entry locally and answers the external OutputID with the local path |
| Tiered.TieredBackfillThenLocal | decorator_storage.go:24-30 | after a hit the key is local, so the next get does not ask the external tier |
| Tiered.Deliver | decorator_storage.go:61-69 | the detached puts run in order against the external tier: no key is removed, and only keys that were put are added |
| Tiered.DeliverLosesNothing | decorator_storage.go:61-69 | after the drain each key holds the last put to it, unless its puts fail, in which case it holds what it held |
| Tiered.TieredPutReachesBothTiers | decorator_storage.go:56-77 | the same bytes reach the local file after the OutputID and the external entry with OutputID and size |
| Engine.ScanFrom | app.go:30-83 | reading only extends the dispatched work and the written replies |
| Engine.Execute | app.go:50-77 | one response with the request's ID and no size; a put hands the converted key, OutputID, body and size to the store and answers the local path, or "" and the store's error text; a get misses exactly when the store does not hit, answers a hit's OutputID and `dir/key`, and carries the store's error text exactly when there is an error; a get copies the size the store reports into the response |
| Engine.Closed | app.go:84-85 | closing leaves the local tier as it is, drains the queue of external puts, and removes no external key |
| Engine.ExecuteAll | app.go:50-84 | one response per work item, in order, each with its request's ID |
| Engine.ExecuteOne | app.go:50-84 | one work item runs as `Execute` states |
| Engine.ResponsesCarryNoSize | app.go:74 | no response of a run carries a body size |
| Engine.Session | app.go:24-89 | the handshake comes first; with the dispatched work run where the source waits for it, a fatal decode error writes only the replies made while reading and leaves the store as it was; otherwise every dispatched request is answered with its ID and the pending external puts are drained |
| Engine.Lines | app.go:96 | each response is followed by a newline |
| Engine.ScanItem | app.go:38-77 | the frames of one get or put dispatch exactly its work item |
| Engine.ScanEncoded | app.go:38-77 | a run of gets and puts dispatches one work item per request, in order, and writes nothing |
| Engine.AnswersEveryRequest | app.go:50-77 | n gets and puts give n + 1 responses: the handshake, then one per request with its ID |
| Engine.ScanStopsAtClose | app.go:79-82 | `close` is answered with its ID and stops the reading |
| Engine.CloseStopsReading | app.go:79-82 | what follows `close` is never read, the handshake is the first line and the close reply, with the close's ID, the second |
| Engine.MalformedIsFatal | app.go:32-37 | a decode error other than EOF ends the run after the handshake; the store is never closed, and work dispatched before the error has not run yet under the model's schedule |
| Engine.UnknownCommandSkipped | app.go:79-83 | a request whose command is not get, put or close is read and gets no response |
| Engine.NullsSkipped | app.go:31-37 | `null` where a request is expected decodes to the zero Request, whose empty command is skipped, however many there are |
| Engine.NullBodyIsEmpty | app.go:40-46 | `null` as a put's body is the empty body |
| Engine.BadBodyIsAnswered | app.go:41-45 | a put whose body frame does not decode is answered with the error under its own ID, and reading goes on |
| Engine.ScanPutGet | app.go:38-77 | the frames of a put with a body, then a get, dispatch both, in that order, and stop at the end of the stream |
| Engine.ExecuteTwo | app.go:84 | two work items run one after the other on the store each leaves |
| Engine.PutThenGetRuns | app.go:50-84 | with a filesystem that does not fail, the put answers the local path, the get answers the put's OutputID and that path, and the drain stores the put in the external tier |
| Engine.PutThenGet | app.go:38-78 | put then get of one ActionID answers the put with the local path, and the get with the put's OutputID and that path; the external tier receives the entry at close |
| Engine.SessionPanicked | app.go:32-36 | a run that panics wrote only the handshake and the replies made while reading, and left the store as it was |
| Engine.SessionFinished | app.go:84-88 | a run that does not panic writes the replies made while reading, then one line per work item, and ends with the store drained and closed |
| Engine.App.constructor | app.go:99-106 | the engine keeps its key converter and store, with nothing written |
| Engine.App.Respond | app.go:91-97 | appends the response with its error text and a newline |
| Engine.App.Read | app.go:30-83 | the loop dispatches and writes what `ScanFrom` states |
| Engine.App.Dispatch | app.go:50-77 | one store call and one response, as `Execute` states |
| Engine.App.Begin | app.go:28-83 | writes the handshake, then reads as `ScanFrom` states |
| Engine.App.Complete | app.go:50-84 | runs the dispatched work in order, writing one line per item, as `ExecuteAll` states |
| Engine.App.Finish | app.go:84-88 | runs the work, then closes the store once, leaving it as `Closed` states |
| Engine.App.Run | app.go:24-89 | writes exactly the lines of `Session`, leaves the store as `Session` states, and closes the store exactly when the run is not fatal |
| Metric.Wrap | metric.go:16 | the int64 a number wraps around to is congruent to it modulo 2^64 |
| Metric.Inc | metric.go:16 | `atomic.AddInt64(&x, 1)` is the two's-complement successor: one more, except that the maximum wraps to the minimum |
| Metric.WrapSucc | metric.go:16 | wrapping after each increment equals wrapping once at the end |
| Metric.Count | metric.go:14-19 | a get adds one to `getCmd` only, a put adds one to `putCmd` only, any other command changes neither |
| Metric.CountAllTotals | metric.go:12-22 | after any sequence of requests, each counter is its start plus the number of its commands, modulo 2^64 |
| Metric.CountAll | metric.go:12-22 | a counter moves only when its command was seen |
| Metric.Stat.constructor | main.go:33 | both counters start at zero |
| Metric.Stat.Record | metric.go:14-19 | updates the counters as `Count` states |
| Legacy.HexDigit | main.go:164 | a lower-case hexadecimal digit |
| Legacy.Hex | main.go:164 | two lower-case hex digits per byte |
| Legacy.HexInjective | main.go:160-165 | different byte strings have different encodings |
| Legacy.CalcFileName | main.go:160-165 | panics exactly on empty data, and otherwise gives the hex encoding, of length twice the data |
| Legacy.DistinctActionsDistinctFiles | main.go:91 | different non-empty action IDs name different files |
| Legacy.LegacyPut | main.go:87-112 | an empty action ID is "invalid action id" and writes nothing; success answers the request ID and `tempDir/hex(ActionID)` with the file holding OutputID, newline, body; errors answer the ID alone; other files are untouched |
| Legacy.GetAsWritten | main.go:114-133 | panics exactly on an empty action ID; every answer carries the request's ID; a miss, exactly when stat succeeds and the file is absent, carries nothing else and no error; a stat, open or read failure is answered with the bare ID and that error (a stat fault always); a hit's OutputID is the file's first line, newline included, at disk path `dir/<hex>` |
| Legacy.LegacyGet | main.go:114-133 | the same answers, with the OutputID being the first line without its newline |
| Legacy.LegacyRoundTrip | main.go:87-133 | with the intended get, a put then get of one action ID answers the stored OutputID and the file's path |
| Legacy.GetKeepsNewline | main.go:122-127 | with get as written, the same round trip answers the OutputID plus a newline, which differs from what was stored |
| Legacy.BodyOfLineAsWritten | main.go:60 | drops the first and the last byte of the line |
| Legacy.BodyOfLine | main.go:60 | drops the two quotes and the newline |
| Legacy.BodyRoundTrip | main.go:60 | the intended extraction gives back the body of a quoted body line |
| Legacy.BodyAsWrittenKeepsQuote | main.go:60 | the extraction as written keeps the closing quote, so the stored body is not the one sent |
| Legacy.ServeFrom | main.go:39-84 | responses are only appended; input without a further newline ends the run with nothing more written |
| Legacy.Session | main.go:31-84 | every run's output starts with the handshake |
| Legacy.TrimLeft | main.go:50 | drops leading white space: a suffix of the line, every dropped byte white space, that does not start with white space |
| Legacy.TrimRight | main.go:50 | drops trailing white space: a prefix of the line, every dropped byte white space, that does not end with white space |
| Legacy.TrimSpace | main.go:50 | `bytes.TrimSpace` on ASCII white space: what is left is a prefix of the line without its leading white space, and starts and ends with a non-space byte |
| Legacy.TrimSpaceBlankAround | main.go:50 | only white space lies before and after what `bytes.TrimSpace` keeps |
| Legacy.TrimSpaceEmpty | main.go:50 | `bytes.TrimSpace` empties a line exactly when it is blank (`IsBlankLine`), so main.go skips exactly the blank lines |
| Legacy.TrimRightKeepsFirst | main.go:50 | trimming trailing white space keeps a first byte that is not white space |
| Legacy.BodyLineLength | main.go:50-60 | a line that is not blank holds a byte besides its newline, so `line[1:len(line)-1]` is defined |
| Legacy.BlankLineSkipped | main.go:50-52 | a blank line changes nothing |
| Legacy.UnknownCommandSkipped | main.go:64-84 | a request line whose command is not get, put or close changes nothing: no answer, count, file or queued put |
| Legacy.PutIsQueued | main.go:69-76 | a put with a non-zero size joins the back of the queue and is not answered yet |
| Legacy.EmptyPutAnswered | main.go:70-74 | a put with size 0 is stored with an empty body and answered at once |
| Legacy.BodyLineServesOldest | main.go:56-62 | a body line completes, counts and answers the oldest pending put, with the body the reading takes from the line |
| Legacy.BodyLineWithoutPutPanics | main.go:57-59 | a body line with no pending put panics |
| Legacy.CloseExits | main.go:78-83 | `close` is answered with its ID and ends the run; the rest of the input and the pending puts are dropped |
| Legacy.TwoPutsQueue | main.go:64-76 | two puts with bodies join the queue in arrival order |
| Legacy.TwoBodiesServe | main.go:56-62 | two body lines complete the two pending puts, oldest first |
| Legacy.TwoPutsServed | main.go:54-76 | the loop over two puts and their two body lines answers both and ends with the input |
| Legacy.TwoPutsStored | main.go:87-112 | two successful puts of distinct actions leave both records |
| Legacy.PendingPutsAreFifo | main.go:54-76 | under either reading, two queued puts take the next two body lines in order, are answered in request order, and are counted |
| Legacy.GetIsAnswered | main.go:65-68 | a get with an action ID is counted and answered at once from the files as they are |
| Legacy.QuotedBodyLine | main.go:50-60 | a body sent as a JSON string on its own line is a body line |
| Legacy.QuotedBodyStored | main.go:56-62 | a put and its quoted body line store the body the reading gives: with the closing quote as written |
| Legacy.PutStored | main.go:87-112 | a put of an action ID on a filesystem that does not fail stores the record and answers its path |
| Legacy.GetAfterPut | main.go:114-133 | a get after such a put answers the OutputID, with a newline appended as written |
| Legacy.PutBodyGetServed | main.go:39-84 | the loop over a put, its body line and a get gives two answers and ends with the input |
| Legacy.PutBodyGetOutcome | main.go:39-133 | the same loop on a filesystem that does not fail, with the stored body and the answered OutputID written out for either reading |
| Legacy.PutBodyThenGetAsWritten | main.go:56-127 | as written, a put with OutputID `o` and body line `"b"` stores `b"` and a later get answers `o` plus a newline |
| Legacy.PutBodyThenGetIntended | main.go:56-127 | as intended, the same run stores `b` and the get answers `o` |
| Legacy.Server.constructor | main.go:33-38 | keeps the directory, decoder and reading, with fresh counters at zero and nothing written |
| Legacy.Server.Respond | main.go:148-158 | appends the response with its error text and no terminator |
| Legacy.Server.MeteredPut | main.go:35 | counts the request, then stores and answers as `LegacyPut` states |
| Legacy.Server.MeteredGet | main.go:34 | counts the request, then answers as `GetBy` states for the server's reading: `GetAsWritten` or `LegacyGet` |
| Legacy.Server.Serve | main.go:28-85 | writes, stores, counts and ends exactly as `Session` states for the server's reading |

## Left out

- JSON encoding.
  - Requests, responses and body values are modelled as decoded values.
  - app.go's input is a sequence of frames whose decoding is given.
  - main.go's `json.Unmarshal` of a request line is a function supplied with the server. Its failure is one panic reason.
  - The base64 of body strings is not modelled, nor is invalid base64.
  - `null` is a frame of its own (`Engine.NullFrame`). Numbers, booleans and arrays are not frames of the model; only objects, strings, `null` and undecodable text are.
- RedisStore.EncodeMeta: stands for `json.Marshal(meta)`. It is a byte encoding with a proved decoder. The exact JSON text is not modelled. The Unmarshal error text is fixed to one representative message.
- Concurrency.
  - app.go runs gets and puts as goroutines and writes their responses in whatever order they finish. The model runs them in dispatch order at the wait.
  - decorator's detached external puts run in issue order at `Close`.
  - Other interleavings, and the unsynchronised writes to the output, are not modelled.
  - So `Engine.Session`, `Engine.SessionPanicked` and `Engine.MalformedIsFatal` describe the schedule in which no dispatched work has run when a fatal decode error panics. In the source that work runs from dispatch on (app.go:51-60, 66-76). It may already have used the store and written its responses before the panic.
  - `atomic` increments are plain updates, since the model is sequential.
- Unreachable error paths.
  - The Redis reads at redis_storage.go:70-73 and 78-81 can only fail with the error `Err()` already reported, so they never fail there.
  - `io.ReadAll` and `json.Marshal` cannot fail on an in-memory body or meta record (redis_storage.go:88-91, 97-100; decorator_storage.go:56-59). The body reaches each store already buffered.
- The filesystem.
  - Path cleaning: `path.Join` also cleans what it joins, removing `//`, `./`, `..` and a trailing `/`. The model joins the parts as given. So the store directory, the Redis prefix and the keys are taken to need no cleaning.
  - `os.MkdirAll` in `NewFileSystemStorage` (filesystem_storage.go:18): the directory is taken to exist, which is why the empty key names a directory. An empty directory name, on which the source panics, is not excluded.
  - Errors from `Close` of a file.
  - The distinction between a stat error that is `os.IsNotExist` and any other: a stat fault is always an error.
- The Redis client's network behaviour, context cancellation and the seven-day expiration.
- Output to standard error.
  - The log of failed external puts (decorator_storage.go:67).
  - The store close error of app.go:87.
  - The `-v` debug output and the statistics print of main.go.
- Process behaviour.
  - Flag parsing.
  - The hard-coded temporary directory of main.go, which is a parameter here.
  - `os.Stdout.Close`, `os.Exit`.
  - Panics from failed writes to the output (app.go:96).
  - A read error other than `io.EOF` on standard input (main.go:44-46): standard input is a byte sequence that always reads.
- Legacy.IsBlankLine: recognises the ASCII white space `bytes.TrimSpace` removes (`Legacy.TrimSpace`), not the multi-byte Unicode spaces such as U+00A0 that it also removes.
- PathJoinShape: holds for a directory that needs no cleaning. `path.Join` also cleans the directory, so `dir/` and `./dir` give `dir/name` in Go and not in the model.
- KeyNames: states the Redis names for a prefix that needs no cleaning. `path.Join` turns the prefix `a/` into `gocacheprog/a/k-o`, where the model gives `gocacheprog/a//k-o`.
- Engine.Execute: runs over the tiered store (`Tiered`) only, while app.go's `App` takes any `Storage` (app.go:20, app.go:99-106), such as a bare filesystem store or a Redis store. Its `size == 0` clause, and `Engine.ResponsesCarryNoSize`, hold because the tiered store's local tier never reports a body size; a Redis store reports `BodySize` (redis_storage.go:43), which app.go:74 copies into `Size`. The copying itself is stated for any store: a get's size is the size the store reports.
- Engine.ResponsesCarryNoSize: holds for the tiered store the engine is modelled over, not for an `App` over another `Storage`, as the Engine.Execute line says.
- Engine.App.Run: does not state the external store's call counters for gets and puts. It states the store state they produce, and the close call.
- log.go, log_storage.go and disc_storage.go are not part of this model.

## Findings

| source | as written | input that shows it | evidently intended | confidence | as-written member | corrected member |
|---|---|---|---|---|---|---|
| main.go:122-127 | `get` answers the bytes `ReadBytes('\n')` returns, newline included, as the OutputID | `put` with OutputID `ab` and a body, then `get` of the same ActionID: the answer's OutputID is `ab\n` | drop the newline, as filesystem_storage.go:34 does, so the OutputID put is the one got | medium, not executed | Legacy.GetKeepsNewline | Legacy.LegacyRoundTrip |
| main.go:60 | the body is `line[1:len(line)-1]`, and the line ends with its newline, so only one quote is removed | body line `"xy"` followed by a newline: the stored body is `xy"` | remove both quotes: `line[1:len(line)-2]` | high, not executed | Legacy.BodyAsWrittenKeepsQuote | Legacy.BodyRoundTrip |

The model of main.go's loop (`Legacy.ServeFrom`, `Legacy.Server.Serve`) runs under a `Reading`.
`AsWritten` is the loop as main.go has it: `GetAsWritten` and `BodyOfLineAsWritten`. `Intended`
uses the corrected `LegacyGet` and `BodyOfLine`. The FIFO lemmas hold under both readings.
`Legacy.PutBodyThenGetAsWritten` shows both findings in one run of the loop as written.
`Legacy.PutBodyThenGetIntended` shows the same run as intended.
