/** `OracleIAVLKeyValueStore`: an in-memory key-value store whose misses on
    node keys are answered by the state oracle, looked up by the 32-byte
    node hash. */
module OracleKvStore {
  import opened Wrappers
  import opened ByteCodec
  import opened GoErrors

  /** `HashSize` is the SHA-256 digest size. */
  const HashSize: nat := 32
  /** `NodeKeyPrefix`, the single byte 'n'. */
  const NodeKeyPrefix: Byte := 110
  const ErrInvalidLegacyKeyPrefix: Error := Sentinel("ErrInvalidLegacyKeyPrefix")
  /** Declared outside tmdb.go. */
  const ErrInvalidKeyLength: Error := Sentinel("ErrInvalidKeyLength")
  /** The in-memory database's own error for an empty key. */
  const ErrKeyEmpty: Error := Sentinel("errKeyEmpty")

  /** The oracle key a store key is looked up under, or why it has none: a
      legacy 33-byte key must carry the node prefix, which is stripped, and
      what remains must be a 32-byte hash. */
  function OracleKey(key: Bytes): (r: Result<Hash, Error>)
    ensures r.Success? <==> |key| == HashSize || (|key| == HashSize + 1 && key[0] == NodeKeyPrefix)
    ensures |key| == HashSize + 1 && key[0] != NodeKeyPrefix ==> r == Failure(ErrInvalidLegacyKeyPrefix)
    ensures |key| != HashSize && |key| != HashSize + 1 ==> r == Failure(ErrInvalidKeyLength)
  {
    var k := if |key| == HashSize + 1 then key[1..] else key;
    if |key| == HashSize + 1 && key[0] != NodeKeyPrefix then Failure(ErrInvalidLegacyKeyPrefix)
    else if |k| != HashSize then Failure(ErrInvalidKeyLength)
    else Success(k)
  }

  /** A node hash and its prefixed legacy form reach the same oracle entry. */
  lemma LegacyKeyRoundTrip(h: Hash)
    ensures OracleKey(h) == Success(h)
    ensures OracleKey([NodeKeyPrefix] + h) == Success(h)
  {
    assert ([NodeKeyPrefix] + h)[1..] == h;
  }

  /** The oracle key determines the store key up to the prefix: two keys of
      the same form with the same oracle key are equal. */
  lemma OracleKeyInjective(a: Bytes, b: Bytes)
    requires |a| == |b| && OracleKey(a).Success? && OracleKey(b).Success?
    requires OracleKey(a).value == OracleKey(b).value
    ensures a == b
  {
    if |a| == HashSize + 1 {
      assert a == [a[0]] + a[1..] && b == [b[0]] + b[1..];
    }
  }

  datatype KvPair = KvPair(key: Bytes, value: Bytes)

  class Store {
    /** The in-memory database. */
    var db: map<Bytes, Bytes>
    /** `oracle.NodeByHash`. */
    const nodeByHash: Hash -> Bytes
    /** Whether a `listen` channel was given, and what was sent on it. */
    const listening: bool
    var listened: seq<KvPair>

    /** `NewOracleBackedIAVLDB`: an empty in-memory database. */
    constructor (nodeByHash: Hash -> Bytes, listening: bool)
      ensures db == map[] && this.nodeByHash == nodeByHash && this.listening == listening && listened == []
    {
      db := map[];
      this.nodeByHash := nodeByHash;
      this.listening := listening;
      listened := [];
    }

    /** `Get`: the in-memory value when there is one, else the oracle's
        answer for the key's node hash. */
    function Get(key: Bytes): (r: Result<Bytes, Error>)
      reads this
      ensures key == [] ==> r == Failure(Wrapped("checking in-memory db", ErrKeyEmpty))
      ensures key != [] && key in db ==> r == Success(db[key])
      ensures key != [] && key !in db ==>
                (r.Success? <==> OracleKey(key).Success?) &&
                (r.Success? ==> r.value == nodeByHash(OracleKey(key).value)) &&
                (r.Failure? ==> r.error == OracleKey(key).error)
    {
      if key == [] then Failure(Wrapped("checking in-memory db", ErrKeyEmpty))
      else if key in db then Success(db[key])
      else if |key| == HashSize + 1 && key[0] != NodeKeyPrefix then Failure(ErrInvalidLegacyKeyPrefix)
      else
        var k := if |key| == HashSize + 1 then key[1..] else key;
        if |k| != HashSize then Failure(ErrInvalidKeyLength)
        else Success(nodeByHash(k))
    }

    /** `Has` consults only the in-memory database. */
    function Has(key: Bytes): (r: Result<bool, Error>)
      reads this
      ensures r.Failure? <==> key == []
      ensures r.Success? ==> (r.value <==> key in db)
    {
      if key == [] then Failure(ErrKeyEmpty) else Success(key in db)
    }

    /** `Set`: reports the pair on `listen` when there is one, then writes
        the in-memory database. */
    method Set(key: Bytes, val: Bytes) returns (err: Option<Error>)
      modifies this`db, this`listened
      ensures listened == if listening then old(listened) + [KvPair(key, val)] else old(listened)
      ensures err.Some? <==> key == []
      ensures key == [] ==> db == old(db)
      ensures key != [] ==> db == old(db)[key := val] && Get(key) == Success(val)
    {
      if listening {
        listened := listened + [KvPair(key, val)];
      }
      if key == [] {
        return Some(ErrKeyEmpty);
      }
      db := db[key := val];
      err := None;
    }

    /** `Delete`: removes the key from the in-memory database, after which
        `Get` falls back to the oracle for it. */
    method Delete(key: Bytes) returns (err: Option<Error>)
      modifies this`db
      ensures err.Some? <==> key == []
      ensures key == [] ==> db == old(db)
      ensures key != [] ==> db == old(db) - {key} && Has(key) == Success(false)
      ensures key != [] && OracleKey(key).Success? ==> Get(key) == Success(nodeByHash(OracleKey(key).value))
    {
      if key == [] {
        return Some(ErrKeyEmpty);
      }
      db := db - {key};
      err := None;
    }
  }
}
