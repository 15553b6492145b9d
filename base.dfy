/** Values shared by every component of the cache proxy: bytes, Go's int64, optional values,
    Go error values, and the records that travel between the protocol engines and the stores
    (Request, Response, Entry, PutRequest). */
module Base {

  /** One element of a Go `[]byte`. */
  newtype byte = x: int | 0 <= x < 256

  type Bytes = seq<byte>

  const Newline: byte := 10

  const MinInt64: int := -0x8000_0000_0000_0000
  const MaxInt64: int := 0x7FFF_FFFF_FFFF_FFFF

  /** Go's int64. */
  newtype int64 = x: int | -0x8000_0000_0000_0000 <= x < 0x8000_0000_0000_0000

  datatype Option<+T> = None | Some(value: T)

  /** A Go `error` value.
      Failure: a leaf error (`errors.New`, `io.EOF`, an error from the operating system or a
               client library), with its text.
      Wrapped: `fmt.Errorf(prefix + "%w" + suffix, cause)`.
      Joined:  `fmt.Errorf("%w %w", first, second)`; a nil operand is not wrapped. */
  datatype Error =
    | Failure(text: string)
    | Wrapped(prefix: string, cause: Error, suffix: string)
    | Joined(first: Option<Error>, second: Option<Error>)

  /** How `fmt` prints a nil operand of `%w`. */
  const NilOperandText := "%!w(<nil>)"

  const EOF := Failure("EOF")

  /** `err.Error()`. */
  function Message(e: Error): (s: string)
    // a leaf prints its text; a wrap prints its format text around the cause's text; a join
    // prints the first operand's text and a space first
    ensures e.Failure? ==> s == e.text
    ensures e.Wrapped? ==> e.prefix <= s && Message(e.cause) <= s[|e.prefix|..] &&
                           |s| == |e.prefix| + |Message(e.cause)| + |e.suffix|
    ensures e.Joined? ==> OperandText(e.first) + " " <= s
  {
    match e
    case Failure(text) => text
    case Wrapped(prefix, cause, suffix) => prefix + Message(cause) + suffix
    case Joined(first, second) => OperandText(first) + " " + OperandText(second)
  }

  /** How `%w` prints an operand: a nil operand is never printed as nothing. */
  function OperandText(e: Option<Error>): (s: string)
    ensures e.None? ==> s == NilOperandText
    ensures s == "" ==> e.Some? && Message(e.value) == ""
  {
    match e
    case None => NilOperandText
    case Some(err) => Message(err)
  }

  /** `errors.Is(e, target)`: target is e or is reachable through its wrapped causes. */
  predicate Is(e: Error, target: Error): (r: bool)
    // every error is itself; a leaf is nothing else
    ensures e == target ==> r
    ensures e.Failure? ==> (r <==> e == target)
  {
    e == target ||
    match e
    case Failure(_) => false
    case Wrapped(_, cause, _) => Is(cause, target)
    case Joined(first, second) =>
      (first.Some? && Is(first.value, target)) || (second.Some? && Is(second.value, target))
  }

  /** Wrapping is transitive: an error that wraps `middle`, which wraps `target`, wraps
      `target`. */
  lemma {:induction false} IsTransitive(e: Error, middle: Error, target: Error)
    requires Is(e, middle) && Is(middle, target)
    ensures Is(e, target)
  {
    if e != middle {
      match e
      case Failure(_) =>
      case Wrapped(_, cause, _) => IsTransitive(cause, middle, target);
      case Joined(first, second) =>
        if first.Some? && Is(first.value, middle) {
          IsTransitive(first.value, middle, target);
        } else {
          IsTransitive(second.value, middle, target);
        }
    }
  }

  /** Commands of the wire protocol (`type Cmd string`). */
  type Cmd = string

  const CmdGet: Cmd := "get"
  const CmdPut: Cmd := "put"
  const CmdClose: Cmd := "close"

  /** A decoded request line. The body travels separately (its field is `json:"-"`). */
  datatype Request = Request(id: int64, command: Cmd, actionID: Bytes, outputID: Bytes, bodySize: int64)

  /** A response line; omitted fields take Go's zero values. */
  datatype Response = Response(
    id: int64 := 0,
    miss: bool := false,
    outputID: Bytes := [],
    diskPath: string := "",
    size: int64 := 0,
    err: string := "",
    knownCommands: seq<Cmd> := [])

  /** The first line either engine writes. */
  const Handshake := Response(knownCommands := [CmdGet, CmdPut, CmdClose])

  /** A response as written to the output stream, followed by `terminator`. */
  datatype Written = Written(response: Response, terminator: Bytes)

  /** What a store's Get returns on a hit (`GetResponse`, also called `Entry`). A nil `Body`
      reader is `None`. */
  datatype Entry = Entry(
    outputID: Bytes := [],
    diskPath: string := "",
    bodySize: int64 := 0,
    body: Option<Bytes> := None)

  /** The argument of a store's Put; the body is already buffered. */
  datatype PutRequest = PutRequest(key: string, outputID: Bytes, body: Bytes, bodySize: int64)

  /** The three results of a store's Get: entry, found flag, error. */
  datatype GetResult = GetResult(entry: Entry, ok: bool, err: Option<Error>)

  /** The two results of a store's Put: disk path, error. */
  datatype PutResult = PutResult(diskPath: string, err: Option<Error>)

  const Miss := GetResult(Entry(), false, None)

  function Fail(e: Error): GetResult
  {
    GetResult(Entry(), false, Some(e))
  }

  /** `resp`: a response carries the error's text exactly when there is an error. */
  function Reply(response: Response, err: Option<Error>): (r: Response)
    ensures r.(err := response.err) == response
    ensures err.Some? ==> r.err == Message(err.value)
    ensures err.None? ==> r == response
  {
    if err.Some? then response.(err := Message(err.value)) else response
  }

  /** `path.Join` on segments that need no cleaning: the non-empty elements joined by "/". */
  function Join(elems: seq<string>): string
  {
    if elems == [] then ""
    else
      var init, last := Join(elems[..|elems| - 1]), elems[|elems| - 1];
      if last == "" then init
      else if init == "" then last
      else init + "/" + last
  }

  /** The joined path is empty exactly when every segment is. */
  lemma {:induction false} JoinEmpty(elems: seq<string>)
    ensures Join(elems) == "" <==> forall i :: 0 <= i < |elems| ==> elems[i] == ""
    decreases |elems|
  {
    if elems != [] {
      var init := elems[..|elems| - 1];
      JoinEmpty(init);
      assert forall i :: 0 <= i < |init| ==> init[i] == elems[i];
    }
  }

  /** The joined path ends with its last segment, when that is not empty. */
  lemma JoinEndsWithLast(elems: seq<string>, last: string)
    requires last != ""
    ensures |last| <= |Join(elems + [last])|
    ensures Join(elems + [last])[|Join(elems + [last])| - |last|..] == last
  {
    assert (elems + [last])[..|elems|] == elems;
  }

  /** `path.Join(dir, name)`. */
  function PathJoin(dir: string, name: string): (r: string)
    ensures name == "" ==> r == dir
    ensures r == "" <==> dir == "" && name == ""
  {
    assert [dir, name][..1] == [dir] && [dir][..0] == [];
    assert Join([dir]) == dir;
    Join([dir, name])
  }

  /** Different non-empty last segments give different joined paths. */
  lemma JoinInjective(elems: seq<string>, a: string, b: string)
    requires a != "" && b != ""
    requires Join(elems + [a]) == Join(elems + [b])
    ensures a == b
  {
    assert (elems + [a])[..|elems|] == elems;
    assert (elems + [b])[..|elems|] == elems;
    var init := Join(elems);
    if init != "" {
      assert (init + "/" + a)[|init| + 1..] == a;
      assert (init + "/" + b)[|init| + 1..] == b;
    }
  }

  lemma PathJoinInjective(dir: string, a: string, b: string)
    requires a != "" && b != ""
    requires PathJoin(dir, a) == PathJoin(dir, b)
    ensures a == b
  {
    assert [dir, a] == [dir] + [a];
    assert [dir, b] == [dir] + [b];
    JoinInjective([dir], a, b);
  }

  /** A path joined under a directory names a file in it: it is the directory, a slash, then
      the name (or the name alone when the directory is empty). */
  lemma PathJoinShape(dir: string, name: string)
    requires name != ""
    ensures PathJoin(dir, name) == if dir == "" then name else dir + "/" + name
  {
    assert [dir, name][..1] == [dir];
    assert [dir][..0] == [];
    assert Join([dir]) == dir;
  }
}
