/**
  The part of a Redis server the conversation history uses: sorted sets
  under string keys, each key with an optional time to live. Redis deletes a
  key whose sorted set becomes empty, together with its TTL, and EXPIRE with
  a non-positive number of seconds deletes the key at once.
*/
module Redis {
  import opened SortedSet

  /** All sorted-set keys and the TTLs (in seconds) of those that have one. */
  datatype Keyspace = Keyspace(zsets: map<string, seq<Entry>>, ttls: map<string, int>)

  /** Every stored set is well-formed and non-empty; only existing keys carry a TTL. */
  ghost predicate ValidKs(ks: Keyspace)
  {
    && (forall k :: k in ks.zsets ==> IsZSet(ks.zsets[k]) && ks.zsets[k] != [])
    && ks.ttls.Keys <= ks.zsets.Keys
  }

  /** The sorted set under `key`; a missing key reads as the empty set. */
  function Get(ks: Keyspace, key: string): seq<Entry>
  {
    if key in ks.zsets then ks.zsets[key] else []
  }

  /** Stores `z` under `key`; an empty set deletes the key and its TTL. */
  function Put(ks: Keyspace, key: string, z: seq<Entry>): Keyspace
  {
    if z == [] then Keyspace(ks.zsets - {key}, ks.ttls - {key})
    else ks.(zsets := ks.zsets[key := z])
  }

  /** ZADD: only the set under `key` changes, and no key gains a TTL. */
  function ZAddK(ks: Keyspace, key: string, member: string, score: int): (r: Keyspace)
    ensures forall k :: k != key ==> Get(r, k) == Get(ks, k)
    ensures r.ttls.Keys <= ks.ttls.Keys
  {
    Put(ks, key, Add(Get(ks, key), member, score))
  }

  /** ZREM: the set under `key` loses exactly the entries of `member`; other keys keep their sets. */
  function ZRemK(ks: Keyspace, key: string, member: string): (r: Keyspace)
    ensures forall x :: x in Get(r, key) <==> x in Get(ks, key) && x.member != member
    ensures forall k :: k != key ==> Get(r, k) == Get(ks, k)
  {
    Put(ks, key, Remove(Get(ks, key), member))
  }

  /** EXPIRE: sets the TTL of an existing key; a non-positive TTL deletes the key. */
  function ExpireK(ks: Keyspace, key: string, seconds: int): (r: Keyspace)
    ensures Get(r, key) == (if seconds <= 0 then [] else Get(ks, key))
    ensures forall k :: k != key ==> Get(r, k) == Get(ks, k) && (k in r.ttls <==> k in ks.ttls)
  {
    if key !in ks.zsets then ks
    else if seconds <= 0 then Keyspace(ks.zsets - {key}, ks.ttls - {key})
    else ks.(ttls := ks.ttls[key := seconds])
  }

  lemma PutGet(ks: Keyspace, key: string)
    requires ValidKs(ks)
    ensures Put(ks, key, Get(ks, key)) == ks
  {
    if key !in ks.zsets {
      assert ks.zsets - {key} == ks.zsets;
      assert ks.ttls - {key} == ks.ttls;
    }
  }

  lemma PutValid(ks: Keyspace, key: string, z: seq<Entry>)
    requires ValidKs(ks) && IsZSet(z)
    ensures ValidKs(Put(ks, key, z))
    ensures Get(Put(ks, key, z), key) == z
    ensures forall k :: k != key ==> Get(Put(ks, key, z), k) == Get(ks, k)
  {
  }

  /** What was written under a key is what is read back. */
  lemma GetPut(ks: Keyspace, key: string, z: seq<Entry>)
    ensures Get(Put(ks, key, z), key) == z
  {
  }

  /** Writing a key twice is writing it once, unless the first write deleted the key's TTL. */
  lemma PutPut(ks: Keyspace, key: string, z1: seq<Entry>, z2: seq<Entry>)
    requires z1 != [] || z2 == []
    ensures Put(Put(ks, key, z1), key, z2) == Put(ks, key, z2)
  {
  }

  /** A Redis server holding sorted sets, with the commands the history engine issues. */
  class RedisStore {
    var zsets: map<string, seq<Entry>>
    var ttls: map<string, int>

    function Space(): Keyspace
      reads this
    {
      Keyspace(zsets, ttls)
    }

    constructor ()
      ensures Space() == Keyspace(map[], map[])
    {
      zsets, ttls := map[], map[];
    }

    /** ZADD key score member */
    method ZAdd(key: string, member: string, score: int)
      modifies this
      ensures Space() == ZAddK(old(Space()), key, member, score)
    {
      var ks := ZAddK(Space(), key, member, score);
      zsets, ttls := ks.zsets, ks.ttls;
    }

    /** ZREVRANGE key rank rank; `z` names the set stored under `key`. */
    method ZRevRangeAt(key: string, rank: nat, ghost z: seq<Entry>) returns (batch: seq<string>)
      requires Get(Space(), key) == z
      ensures batch == RevAt(z, rank)
      ensures batch != [] <==> rank < |z|
      ensures batch != [] ==> batch[0] == z[|z| - 1 - rank].member
    {
      var stored := if key in zsets then zsets[key] else [];
      batch := if rank < |stored| then [stored[|stored| - 1 - rank].member] else [];
    }

    /** ZREM key member */
    method ZRem(key: string, member: string)
      modifies this
      ensures Space() == ZRemK(old(Space()), key, member)
    {
      var ks := ZRemK(Space(), key, member);
      zsets, ttls := ks.zsets, ks.ttls;
    }

    /** EXPIRE key seconds */
    method Expire(key: string, seconds: int)
      modifies this
      ensures Space() == ExpireK(old(Space()), key, seconds)
    {
      var ks := ExpireK(Space(), key, seconds);
      zsets, ttls := ks.zsets, ks.ttls;
    }
  }
}
