/** The external store over a Redis cluster. An entry under `key` is two Redis values: the body
    under `gocacheprog/[prefix/]key-o` and the marshalled `meta` record (OutputID and size) under
    `gocacheprog/[prefix/]key-i`. */
module RedisStore {
  import opened Base

  // ---------------------------------------------------------------------------------------
  // strings.TrimSpace

  /** `unicode.IsSpace`. */
  predicate IsSpace(c: char): (r: bool)
    // in the Latin-1 range: '\t', '\n', '\v', '\f', '\r', ' ', U+0085 (NEL) and U+00A0 (NBSP)
    ensures c as int < 0x100 ==> (r <==> c as int in {9, 10, 11, 12, 13, 32, 0x85, 0xA0})
  {
    var n := c as int;
    (9 <= n <= 13) || n == 32 || n == 0x85 || n == 0xA0 || n == 0x1680 || (0x2000 <= n <= 0x200A) ||
    n == 0x2028 || n == 0x2029 || n == 0x202F || n == 0x205F || n == 0x3000
  }

  /** Every character of `s` is white space. */
  predicate IsBlank(s: string)
  {
    forall i :: 0 <= i < |s| ==> IsSpace(s[i])
  }

  /** `s` with its leading white space removed. */
  function TrimLeft(s: string): (r: string)
    ensures |r| <= |s| && r == s[|s| - |r|..]
    ensures IsBlank(s[..|s| - |r|])
    ensures r != "" ==> !IsSpace(r[0])
  {
    if s != "" && IsSpace(s[0]) then
      var r := TrimLeft(s[1..]);
      assert s[..|s| - |r|] == [s[0]] + s[1..][..|s| - 1 - |r|];
      r
    else s
  }

  /** `s` with its trailing white space removed. */
  function TrimRight(s: string): (r: string)
    ensures |r| <= |s| && r == s[..|r|]
    ensures IsBlank(s[|r|..])
    ensures r != "" ==> !IsSpace(r[|r| - 1])
  {
    if s != "" && IsSpace(s[|s| - 1]) then
      var r := TrimRight(s[..|s| - 1]);
      assert s[|r|..] == s[..|s| - 1][|r|..] + [s[|s| - 1]];
      r
    else s
  }

  /** `strings.TrimSpace(s)`: `s` without its leading and trailing white space. */
  function TrimSpace(s: string): (r: string)
    ensures |r| <= |s|
    ensures r == "" <==> IsBlank(s)
    ensures r != "" ==> !IsSpace(r[0]) && !IsSpace(r[|r| - 1])
  {
    var left := TrimLeft(s);
    assert s == s[..|s| - |left|] + left;
    TrimRight(left)
  }

  /** A string that is white space, then `inner`, then white space, trims to `inner` when
      `inner` neither starts nor ends with white space. */
  lemma TrimSpaceOf(lead: string, inner: string, trail: string)
    requires IsBlank(lead) && IsBlank(trail)
    requires inner != "" && !IsSpace(inner[0]) && !IsSpace(inner[|inner| - 1])
    ensures TrimSpace(lead + inner + trail) == inner
  {
    TrimLeftOf(lead, inner + trail);
    assert lead + inner + trail == lead + (inner + trail);
    TrimRightOf(inner, trail);
  }

  lemma {:induction false} TrimLeftOf(lead: string, rest: string)
    requires IsBlank(lead) && rest != "" && !IsSpace(rest[0])
    ensures TrimLeft(lead + rest) == rest
  {
    if lead != "" {
      assert (lead + rest)[1..] == lead[1..] + rest;
      TrimLeftOf(lead[1..], rest);
    }
  }

  lemma {:induction false} TrimRightOf(rest: string, trail: string)
    requires IsBlank(trail) && rest != "" && !IsSpace(rest[|rest| - 1])
    ensures TrimRight(rest + trail) == rest
  {
    if trail != "" {
      var init := trail[..|trail| - 1];
      assert (rest + trail)[..|rest + trail| - 1] == rest + init;
      TrimRightOf(rest, init);
    } else {
      assert rest + trail == rest;
    }
  }

  /** Trimming twice is trimming once. */
  lemma TrimSpaceIdempotent(s: string)
    ensures TrimSpace(TrimSpace(s)) == TrimSpace(s)
  {
    var t := TrimSpace(s);
    assert TrimLeft(t) == t;
    assert TrimRight(t) == t;
  }

  // ---------------------------------------------------------------------------------------
  // Key names

  const KeyRoot := "gocacheprog"

  /** `keyNames(key)` under the store's (trimmed) prefix: the body name and the meta name. */
  function KeyNames(prefix: string, key: string): (r: (string, string))
    ensures r.0 != r.1
    ensures key != "" ==>
      var name := KeyRoot + "/" + (if prefix == "" then "" else prefix + "/") + key;
      r == (name + "-o", name + "-i")
    // `path.Join` drops an empty key
    ensures key == "" ==>
      var name := KeyRoot + (if prefix == "" then "" else "/" + prefix);
      r == (name + "-o", name + "-i")
  {
    var head := [KeyRoot] + (if prefix != "" then [prefix] else []);
    var name := Join(head + [key]);
    KeyNameShape(prefix, key);
    assert key == "" ==> name == Join(head) by {
      assert (head + [key])[..|head|] == head;
    }
    assert (name + "-o")[|name| + 1] != (name + "-i")[|name| + 1];
    (name + "-o", name + "-i")
  }

  lemma KeyNameShape(prefix: string, key: string)
    ensures key != "" ==>
      Join([KeyRoot] + (if prefix != "" then [prefix] else []) + [key]) ==
      KeyRoot + "/" + (if prefix == "" then "" else prefix + "/") + key
    ensures Join([KeyRoot] + (if prefix != "" then [prefix] else [])) ==
      KeyRoot + (if prefix == "" then "" else "/" + prefix)
  {
    var head := [KeyRoot] + (if prefix != "" then [prefix] else []);
    assert (head + [key])[..|head|] == head;
    assert [KeyRoot][..0] == [];
    assert Join([KeyRoot]) == KeyRoot;
    if prefix != "" {
      assert head == [KeyRoot, prefix];
      assert head[..1] == [KeyRoot];
      assert Join(head) == KeyRoot + "/" + prefix;
    } else {
      assert head == [KeyRoot];
    }
  }

  /** Different keys have different body names and different meta names, and no key's body name
      is any key's meta name. */
  lemma KeyNamesSeparate(prefix: string, k1: string, k2: string)
    requires k1 != "" && k2 != "" && k1 != k2
    ensures KeyNames(prefix, k1).0 != KeyNames(prefix, k2).0
    ensures KeyNames(prefix, k1).1 != KeyNames(prefix, k2).1
    ensures KeyNames(prefix, k1).0 != KeyNames(prefix, k2).1
  {
    var stem := KeyRoot + "/" + (if prefix == "" then "" else prefix + "/");
    var b1, b2 := KeyNames(prefix, k1).0, KeyNames(prefix, k2).0;
    var m1, m2 := KeyNames(prefix, k1).1, KeyNames(prefix, k2).1;
    assert b1[|stem|..|b1| - 2] == k1 && m1[|stem|..|m1| - 2] == k1;
    assert b2[|stem|..|b2| - 2] == k2 && m2[|stem|..|m2| - 2] == k2;
    assert b1[|b1| - 1] != m2[|m2| - 1];
  }

  /** The empty key's names are those of no other key: they end where every other key's
      names go on with "/". */
  lemma EmptyKeyNamesSeparate(prefix: string, key: string)
    requires key != ""
    ensures KeyNames(prefix, "").0 != KeyNames(prefix, key).0 && KeyNames(prefix, "").0 != KeyNames(prefix, key).1
    ensures KeyNames(prefix, "").1 != KeyNames(prefix, key).0 && KeyNames(prefix, "").1 != KeyNames(prefix, key).1
  {
    var root := KeyRoot + (if prefix == "" then "" else "/" + prefix);
    var stem := KeyRoot + "/" + (if prefix == "" then "" else prefix + "/");
    assert KeyNames(prefix, key).0[|root|] == stem[|root|] == '/';
    assert KeyNames(prefix, key).1[|root|] == '/';
    assert KeyNames(prefix, "").0[|root|] == '-' && KeyNames(prefix, "").1[|root|] == '-';
  }

  // ---------------------------------------------------------------------------------------
  // The meta record and its encoding

  /** The record stored under the meta name. */
  datatype Meta = Meta(outputID: Bytes := [], size: int64 := 0)

  function Pow256(k: nat): (r: nat)
    ensures r > 0
  {
    if k == 0 then 1 else 256 * Pow256(k - 1)
  }

  /** `n` as `k` big-endian bytes. */
  function BigEndian(n: nat, k: nat): (r: Bytes)
    requires n < Pow256(k)
    ensures |r| == k
  {
    if k == 0 then []
    else
      assert n / 256 < Pow256(k - 1);
      BigEndian(n / 256, k - 1) + [(n % 256) as byte]
  }

  /** The number that the big-endian bytes `b` denote. */
  function FromBigEndian(b: Bytes): nat
  {
    if b == [] then 0 else FromBigEndian(b[..|b| - 1]) * 256 + b[|b| - 1] as int
  }

  lemma {:induction false} BigEndianRoundTrip(n: nat, k: nat)
    requires n < Pow256(k)
    ensures FromBigEndian(BigEndian(n, k)) == n
  {
    if k > 0 {
      var b := BigEndian(n, k);
      assert b[..k - 1] == BigEndian(n / 256, k - 1);
      BigEndianRoundTrip(n / 256, k - 1);
    }
  }

  /** The first byte of an encoded meta record (`{`). */
  const MetaTag: byte := 123

  /** `json.Marshal(meta)`, as a tag, the size offset to a natural number in eight big-endian
      bytes, and the OutputID. */
  function EncodeMeta(m: Meta): (r: Bytes)
    ensures |r| == 9 + |m.outputID| && r[0] == MetaTag && r[9..] == m.outputID
  {
    assert (m.size as int) - MinInt64 < Pow256(8);
    [MetaTag] + BigEndian((m.size as int) - MinInt64, 8) + m.outputID
  }

  /** `json.Unmarshal` into a meta record: `None` when the bytes are not an encoded record. */
  function DecodeMeta(b: Bytes): (r: Option<Meta>)
    ensures r.Some? ==> |b| >= 9 && b[0] == MetaTag && r.value.outputID == b[9..]
    ensures |b| < 9 || b[0] != MetaTag ==> r.None?
  {
    if |b| >= 9 && b[0] == MetaTag then
      var n := FromBigEndian(b[1..9]) + MinInt64;
      if n <= MaxInt64 then Some(Meta(outputID := b[9..], size := n as int64)) else None
    else None
  }

  /** Decoding undoes encoding. */
  lemma MetaRoundTrip(m: Meta)
    ensures DecodeMeta(EncodeMeta(m)) == Some(m)
  {
    var b := EncodeMeta(m);
    assert (m.size as int) - MinInt64 < Pow256(8);
    var digits := BigEndian((m.size as int) - MinInt64, 8);
    assert b[1..9] == digits && b[9..] == m.outputID;
    BigEndianRoundTrip((m.size as int) - MinInt64, 8);
  }

  /** The error `json.Unmarshal` returns on bytes that are not a meta record. */
  const UnmarshalError := Failure("invalid character looking for beginning of value")

  // ---------------------------------------------------------------------------------------
  // The cluster

  /** `redis.Nil`: the reply to a `GET` of a key that does not exist. */
  const RedisNil := Failure("redis: nil")

  /** The reply to a `GET`: the value, or an error. */
  datatype StringCmd = StringCmd(val: Bytes, err: Option<Error>)

  /** `GET key` on the cluster holding `kv`, with `getFaults` naming the keys whose `GET`
      fails. */
  function ClusterGet(kv: map<string, Bytes>, getFaults: map<string, Error>, key: string): (r: StringCmd)
    ensures r.err.None? <==> key !in getFaults && key in kv
    ensures r.err.None? ==> r.val == kv[key]
    // a failing GET reports its fault; a key that does not exist gives redis.Nil
    ensures key in getFaults ==> r.err == Some(getFaults[key])
    ensures key !in getFaults && key !in kv ==> r.err == Some(RedisNil)
  {
    if key in getFaults then StringCmd([], Some(getFaults[key]))
    else if key in kv then StringCmd(kv[key], None)
    else StringCmd([], Some(RedisNil))
  }

  /** A Redis cluster: its key space and the failures its commands report. */
  class Cluster {
    var kv: map<string, Bytes>
    const getFaults: map<string, Error>
    const setFaults: map<string, Error>
    const closeFault: Option<Error>

    constructor (kv: map<string, Bytes>, getFaults: map<string, Error>, setFaults: map<string, Error>, closeFault: Option<Error>)
      ensures this.kv == kv && this.getFaults == getFaults && this.setFaults == setFaults && this.closeFault == closeFault
    {
      this.kv := kv;
      this.getFaults := getFaults;
      this.setFaults := setFaults;
      this.closeFault := closeFault;
    }

    /** `GET key`. */
    method Get(key: string) returns (r: StringCmd)
      ensures r == ClusterGet(kv, getFaults, key)
    {
      if key in getFaults {
        r := StringCmd([], Some(getFaults[key]));
      } else if key in kv {
        r := StringCmd(kv[key], None);
      } else {
        r := StringCmd([], Some(RedisNil));
      }
    }

    /** `SET key value`: stores the value unless the command fails. */
    method Set(key: string, value: Bytes) returns (err: Option<Error>)
      modifies this`kv
      ensures key in setFaults ==> err == Some(setFaults[key]) && kv == old(kv)
      ensures key !in setFaults ==> err.None? && kv == old(kv)[key := value]
    {
      if key in setFaults {
        err := Some(setFaults[key]);
      } else {
        err := None;
        kv := kv[key := value];
      }
    }

    method Close() returns (err: Option<Error>)
      ensures err == closeFault
    {
      err := closeFault;
    }
  }

  // ---------------------------------------------------------------------------------------
  // The store

  /** The four results of `get`: body, meta record, found flag, error. */
  datatype LookupResult = LookupResult(body: Option<Bytes>, meta: Meta, ok: bool, err: Option<Error>)

  const NotFound := LookupResult(None, Meta(), false, None)

  function LookupFailed(e: Error): LookupResult
  {
    LookupResult(None, Meta(), false, Some(e))
  }

  /** What `get(key)` returns on the cluster holding `kv`. */
  function RedisLookup(kv: map<string, Bytes>, getFaults: map<string, Error>, prefix: string, key: string): (r: LookupResult)
    ensures IsBlank(key) ==> r == LookupFailed(Failure("empty key"))
    ensures r.ok ==>
      r.err.None? && KeyNames(prefix, key).0 in kv && KeyNames(prefix, key).1 in kv &&
      r.body == Some(kv[KeyNames(prefix, key).0]) && DecodeMeta(kv[KeyNames(prefix, key).1]) == Some(r.meta)
    ensures !r.ok ==> r.body.None? && r.meta == Meta()
    ensures !IsBlank(key) && KeyNames(prefix, key).0 !in getFaults && KeyNames(prefix, key).1 !in getFaults ==>
      (r == NotFound <==> KeyNames(prefix, key).0 !in kv || KeyNames(prefix, key).1 !in kv)
  {
    if TrimSpace(key) == "" then LookupFailed(Failure("empty key"))
    else
      var (keyBody, keyMeta) := KeyNames(prefix, key);
      var bodyGet := ClusterGet(kv, getFaults, keyBody);
      if bodyGet.err.Some? && Is(bodyGet.err.value, RedisNil) then NotFound
      else if bodyGet.err.Some? then LookupFailed(Wrapped("redis bodyGet error: ", bodyGet.err.value, " " + key))
      else
        var metaGet := ClusterGet(kv, getFaults, keyMeta);
        if metaGet.err.Some? && Is(metaGet.err.value, RedisNil) then NotFound
        else if metaGet.err.Some? then LookupFailed(Wrapped("redis metaGet error: ", metaGet.err.value, " " + key))
        else
          match DecodeMeta(metaGet.val)
          case None => LookupFailed(Wrapped("redis metaGet Unmarshal error: ", UnmarshalError, " " + key))
          case Some(m) => LookupResult(Some(bodyGet.val), m, true, None)
  }

  /** What `Get(key)` returns: the meta record's OutputID and size and the body on a hit, with
      no disk path. */
  function RedisGet(kv: map<string, Bytes>, getFaults: map<string, Error>, prefix: string, key: string): (r: GetResult)
    ensures var l := RedisLookup(kv, getFaults, prefix, key);
      r.err == l.err && (r.ok <==> l.ok) &&
      (r.ok ==> r.entry == Entry(outputID := l.meta.outputID, diskPath := "", bodySize := l.meta.size, body := l.body)) &&
      (!r.ok ==> r.entry == Entry())
  {
    var l := RedisLookup(kv, getFaults, prefix, key);
    if l.err.Some? then Fail(l.err.value)
    else if !l.ok then Miss
    else GetResult(Entry(outputID := l.meta.outputID, diskPath := "", bodySize := l.meta.size, body := l.body), true, None)
  }

  /** What `Put(request)` leaves in the key space and returns. */
  function RedisPut(kv: map<string, Bytes>, setFaults: map<string, Error>, prefix: string, request: PutRequest)
    : (r: (map<string, Bytes>, PutResult))
    ensures r.1.diskPath == ""
    ensures var (keyBody, keyMeta) := KeyNames(prefix, request.key);
      (keyBody in setFaults ==> r == (kv, PutResult("", Some(Wrapped("redis set error: ", setFaults[keyBody], " " + request.key))))) &&
      (keyBody !in setFaults && keyMeta in setFaults ==>
        r == (kv[keyBody := request.body], PutResult("", Some(Wrapped("redis set error: ", setFaults[keyMeta], " " + request.key))))) &&
      (r.1.err.None? <==> keyBody !in setFaults && keyMeta !in setFaults) &&
      (r.1.err.None? ==> r.0 == kv[keyBody := request.body][keyMeta := EncodeMeta(Meta(request.outputID, request.bodySize))])
    ensures forall k :: k != KeyNames(prefix, request.key).0 && k != KeyNames(prefix, request.key).1 ==>
      (k in r.0 <==> k in kv) && (k in kv ==> r.0[k] == kv[k])
  {
    var (keyBody, keyMeta) := KeyNames(prefix, request.key);
    if keyBody in setFaults then
      (kv, PutResult("", Some(Wrapped("redis set error: ", setFaults[keyBody], " " + request.key))))
    else
      var kv' := kv[keyBody := request.body];
      if keyMeta in setFaults then
        (kv', PutResult("", Some(Wrapped("redis set error: ", setFaults[keyMeta], " " + request.key))))
      else
        (kv'[keyMeta := EncodeMeta(Meta(request.outputID, request.bodySize))], PutResult("", None))
  }

  /** The store over a cluster, with a key prefix. */
  class RedisStorage {
    const cluster: Cluster
    const prefix: string

    /** `NewRedisStorage`: the prefix is kept with its surrounding white space trimmed. */
    constructor (cluster: Cluster, redisKeyPrefix: string)
      ensures this.cluster == cluster && prefix == TrimSpace(redisKeyPrefix)
    {
      this.cluster := cluster;
      prefix := TrimSpace(redisKeyPrefix);
    }

    /** `get`: reads the body name, then the meta name, and decodes the meta record. */
    method Lookup(key: string) returns (r: LookupResult)
      ensures r == RedisLookup(cluster.kv, cluster.getFaults, prefix, key)
    {
      if TrimSpace(key) == "" {
        return LookupFailed(Failure("empty key"));
      }
      var (keyBody, keyMeta) := KeyNames(prefix, key);
      var bodyGet := cluster.Get(keyBody);
      if bodyGet.err.Some? && Is(bodyGet.err.value, RedisNil) {
        return NotFound;
      }
      if bodyGet.err.Some? {
        return LookupFailed(Wrapped("redis bodyGet error: ", bodyGet.err.value, " " + key));
      }
      var metaGet := cluster.Get(keyMeta);
      if metaGet.err.Some? && Is(metaGet.err.value, RedisNil) {
        return NotFound;
      }
      if metaGet.err.Some? {
        return LookupFailed(Wrapped("redis metaGet error: ", metaGet.err.value, " " + key));
      }
      var m := DecodeMeta(metaGet.val);
      if m.None? {
        return LookupFailed(Wrapped("redis metaGet Unmarshal error: ", UnmarshalError, " " + key));
      }
      r := LookupResult(Some(bodyGet.val), m.value, true, None);
    }

    method Get(key: string) returns (r: GetResult)
      ensures r == RedisGet(cluster.kv, cluster.getFaults, prefix, key)
    {
      var l := Lookup(key);
      if l.err.Some? {
        return Fail(l.err.value);
      }
      if !l.ok {
        return Miss;
      }
      r := GetResult(Entry(outputID := l.meta.outputID, diskPath := "", bodySize := l.meta.size, body := l.body), true, None);
    }

    /** Sets the body name, then the meta name; a failed `SET` ends the put. */
    method Put(request: PutRequest) returns (r: PutResult)
      modifies cluster`kv
      ensures (cluster.kv, r) == RedisPut(old(cluster.kv), cluster.setFaults, prefix, request)
    {
      var (keyBody, keyMeta) := KeyNames(prefix, request.key);
      var err := cluster.Set(keyBody, request.body);
      if err.Some? {
        return PutResult("", Some(Wrapped("redis set error: ", err.value, " " + request.key)));
      }
      err := cluster.Set(keyMeta, EncodeMeta(Meta(request.outputID, request.bodySize)));
      if err.Some? {
        return PutResult("", Some(Wrapped("redis set error: ", err.value, " " + request.key)));
      }
      r := PutResult("", None);
    }

    method Close() returns (err: Option<Error>)
      ensures err == cluster.closeFault
    {
      err := cluster.Close();
    }
  }

  // ---------------------------------------------------------------------------------------
  // Properties

  /** Round trip: after a successful `Put(k, o, b, n)`, `Get(k)` hits with OutputID `o`, size
      `n` and body `b`. */
  lemma RedisRoundTrip(kv: map<string, Bytes>, getFaults: map<string, Error>, setFaults: map<string, Error>,
                       prefix: string, request: PutRequest)
    requires !IsBlank(request.key)
    requires KeyNames(prefix, request.key).0 !in getFaults && KeyNames(prefix, request.key).1 !in getFaults
    requires RedisPut(kv, setFaults, prefix, request).1.err.None?
    ensures RedisGet(RedisPut(kv, setFaults, prefix, request).0, getFaults, prefix, request.key) ==
      GetResult(Entry(outputID := request.outputID, diskPath := "", bodySize := request.bodySize, body := Some(request.body)), true, None)
  {
    MetaRoundTrip(Meta(request.outputID, request.bodySize));
  }

  /** A put under one key leaves what `Get` returns for every other key as it was. */
  lemma RedisPutIsolated(kv: map<string, Bytes>, getFaults: map<string, Error>, setFaults: map<string, Error>,
                         prefix: string, request: PutRequest, other: string)
    requires other != request.key
    ensures RedisGet(RedisPut(kv, setFaults, prefix, request).0, getFaults, prefix, other) ==
      RedisGet(kv, getFaults, prefix, other)
  {
    if !IsBlank(other) {
      if request.key == "" {
        EmptyKeyNamesSeparate(prefix, other);
      } else {
        KeyNamesSeparate(prefix, request.key, other);
        KeyNamesSeparate(prefix, other, request.key);
      }
      var kv' := RedisPut(kv, setFaults, prefix, request).0;
      GetReadsItsName(kv', kv, getFaults, KeyNames(prefix, other).0);
      GetReadsItsName(kv', kv, getFaults, KeyNames(prefix, other).1);
      LookupReadsItsNames(kv', kv, getFaults, prefix, other);
    }
  }

  /** A lookup depends on the key space only through the `GET` replies for the key's two
      names. */
  lemma LookupReadsItsNames(kv: map<string, Bytes>, kv': map<string, Bytes>, getFaults: map<string, Error>,
                            prefix: string, key: string)
    requires ClusterGet(kv, getFaults, KeyNames(prefix, key).0) == ClusterGet(kv', getFaults, KeyNames(prefix, key).0)
    requires ClusterGet(kv, getFaults, KeyNames(prefix, key).1) == ClusterGet(kv', getFaults, KeyNames(prefix, key).1)
    ensures RedisLookup(kv, getFaults, prefix, key) == RedisLookup(kv', getFaults, prefix, key)
  {
  }

  /** A `GET` reads the key space only at its own name. */
  lemma GetReadsItsName(kv: map<string, Bytes>, kv': map<string, Bytes>, getFaults: map<string, Error>, name: string)
    requires name in kv <==> name in kv'
    requires name in kv ==> kv[name] == kv'[name]
    ensures ClusterGet(kv, getFaults, name) == ClusterGet(kv', getFaults, name)
  {
  }

  /** A put whose second `SET` fails is torn: the new body sits beside the old meta record, and
      `Get` returns the old OutputID and size with the new body. */
  lemma RedisTornPut(kv: map<string, Bytes>, getFaults: map<string, Error>, setFaults: map<string, Error>,
                     prefix: string, request: PutRequest, previous: Meta)
    requires !IsBlank(request.key)
    requires KeyNames(prefix, request.key).0 !in getFaults && KeyNames(prefix, request.key).1 !in getFaults
    requires KeyNames(prefix, request.key).0 !in setFaults && KeyNames(prefix, request.key).1 in setFaults
    requires KeyNames(prefix, request.key).1 in kv && kv[KeyNames(prefix, request.key).1] == EncodeMeta(previous)
    ensures RedisPut(kv, setFaults, prefix, request).1.err.Some?
    ensures RedisGet(RedisPut(kv, setFaults, prefix, request).0, getFaults, prefix, request.key) ==
      GetResult(Entry(outputID := previous.outputID, diskPath := "", bodySize := previous.size, body := Some(request.body)), true, None)
  {
    MetaRoundTrip(previous);
  }
}
