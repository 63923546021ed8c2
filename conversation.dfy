/**
  The conversation history: every turn of a user's dialogue is stored as the
  JSON text of a `Message` in a Redis sorted set under `history:<user id>`,
  scored by its millisecond timestamp. Reading the history walks the set from
  the newest turn down, keeps turns while a character budget lasts, and
  deletes every turn that does not fit.

  Redis is reached through a `RedisStore`; a connection or command can fail,
  which a `Fault` describes: the number of Redis calls (acquiring the
  connection counts as one) that succeed before the first failure, or `None`
  when none fails.
*/
module Conversation {
  import opened Wrappers
  import opened RustStd
  import opened MessageJson
  import opened SortedSet
  import opened Redis

  /** Ten minutes, in seconds. */
  const DEFAULT_CACHE_DURATION: int64 := 600
  /** The default budget, in bytes of stored JSON text. */
  const DEFAULT_CHAR_LIMIT: nat := 10_000
  const HISTORY_PREFIX: string := "history"

  /** A failed Redis call (`RedisError`). */
  datatype StoreError = StoreError

  type Fault = Option<nat>

  /** The next Redis call fails. */
  predicate Fails(f: Fault)
  {
    f == Some(0)
  }

  /** The fault as seen by the call after a successful one. */
  function Next(f: Fault): Fault
  {
    match f
    case None => None
    case Some(n) => if n == 0 then Some(0) else Some(n - 1)
  }

  /** The key of a user's history: `format!("{}:{}", prefix, user_id)`. */
  function HistoryKey(prefix: string, userId: string): string
  {
    prefix + ":" + userId
  }

  /** Different users never share a history. */
  lemma HistoryKeyInjective(prefix: string, a: string, b: string)
    requires HistoryKey(prefix, a) == HistoryKey(prefix, b)
    ensures a == b
  {
    assert a == HistoryKey(prefix, a)[|prefix| + 1..];
    assert b == HistoryKey(prefix, b)[|prefix| + 1..];
  }

  function Reverse<T>(s: seq<T>): (r: seq<T>)
    ensures |r| == |s|
    ensures forall i :: 0 <= i < |s| ==> r[i] == s[|s| - 1 - i]
  {
    if s == [] then [] else Reverse(s[1..]) + [s[0]]
  }

  // ---------------------------------------------------------------------------
  // What the sorted sets hold
  // ---------------------------------------------------------------------------

  /** A member the history can hold: the JSON text of a message, as `ToJson` writes it. */
  ghost predicate Canonical(member: string)
  {
    exists m: Message :: ToJson(m) == member
  }

  ghost predicate AllCanonical(z: seq<Entry>)
  {
    forall x :: x in z ==> Canonical(x.member)
  }

  /** A member the history can hold decodes to the message it was written from. */
  lemma CanonicalDecodes(member: string)
    requires Canonical(member)
    ensures FromJson(member).Some? && ToJson(FromJson(member).value) == member
  {
    var m :| ToJson(m) == member;
    FromToJson(m);
  }

  /** Every history is a well-formed sorted set of stored messages. */
  ghost predicate HistoryValid(ks: Keyspace)
  {
    ValidKs(ks) && forall k :: k in ks.zsets ==> AllCanonical(ks.zsets[k])
  }

  /** The messages the members stand for, in the same order. */
  function Decoded(z: seq<Entry>): (ms: seq<Message>)
    requires AllCanonical(z)
    ensures |ms| == |z|
    ensures forall i :: 0 <= i < |z| ==> ToJson(ms[i]) == z[i].member
  {
    if z == [] then []
    else
      assert forall x :: x in z[1..] ==> x in z;
      CanonicalDecodes(z[0].member);
      var rest := Decoded(z[1..]);
      assert forall i :: 1 <= i < |z| ==> z[i] == z[1..][i - 1];
      [FromJson(z[0].member).value] + rest
  }

  lemma {:induction false} DecodedAppend(z: seq<Entry>, e: Entry)
    requires AllCanonical(z) && Canonical(e.member) && FromJson(e.member).Some?
    ensures AllCanonical(z + [e])
    ensures Decoded(z + [e]) == Decoded(z) + [FromJson(e.member).value]
  {
    if z != [] {
      CanonicalDecodes(z[0].member);
      var h := FromJson(z[0].member).value;
      assert (z + [e])[1..] == z[1..] + [e];
      assert forall x :: x in z[1..] ==> x in z;
      DecodedAppend(z[1..], e);
      assert Decoded(z + [e]) == [h] + Decoded(z[1..] + [e]);
      AppendAssoc([h], Decoded(z[1..]), [FromJson(e.member).value]);
    }
  }

  /** The bytes the budget charges for a run of entries. */
  function SumLen(z: seq<Entry>): nat
  {
    if z == [] then 0 else Utf8Len(z[0].member) + SumLen(z[1..])
  }

  /** The bytes of the JSON texts of a run of messages. */
  function JsonLen(ms: seq<Message>): nat
  {
    if ms == [] then 0 else Utf8Len(ToJson(ms[0])) + JsonLen(ms[1..])
  }

  lemma {:induction false} DecodedJsonLen(z: seq<Entry>)
    requires AllCanonical(z)
    ensures JsonLen(Decoded(z)) == SumLen(z)
  {
    if z != [] {
      assert forall x :: x in z[1..] ==> x in z;
      assert Decoded(z)[1..] == Decoded(z[1..]);
      DecodedJsonLen(z[1..]);
    }
  }

  lemma {:induction false} JsonLenAppend(a: seq<Message>, b: seq<Message>)
    ensures JsonLen(a + b) == JsonLen(a) + JsonLen(b)
  {
    if a != [] {
      assert (a + b)[1..] == a[1..] + b;
      JsonLenAppend(a[1..], b);
    } else {
      assert a + b == b;
    }
  }

  lemma {:induction false} JsonLenReverse(ms: seq<Message>)
    ensures JsonLen(Reverse(ms)) == JsonLen(ms)
  {
    if ms != [] {
      JsonLenReverse(ms[1..]);
      JsonLenAppend(Reverse(ms[1..]), [ms[0]]);
      assert [ms[0]][1..] == [];
    }
  }

  // ---------------------------------------------------------------------------
  // `get_conversation`: the live scan
  // ---------------------------------------------------------------------------

  /**
    What the scan from rank `cursor` on returns: the kept entries (newest
    first), the set left behind, and whether every Redis call succeeded.
  */
  datatype ScanState = ScanState(kept: seq<Entry>, zset: seq<Entry>, ok: bool)

  /**
    The read loop on the set `z` as it stands: the entry at reverse rank
    `cursor` is kept while the budget `limit` allows, otherwise ZREM deletes it
    at once; the cursor advances in both cases, so after a deletion the scan
    continues one rank further down in the set that has shrunk.
  */
  function Scan(z: seq<Entry>, cursor: nat, total: nat, limit: nat, f: Fault): ScanState
    decreases |z| - cursor
  {
    if Fails(f) then ScanState([], z, false)
    else if cursor >= |z| then ScanState([], z, true)
    else
      var e := z[|z| - 1 - cursor];
      var len := Utf8Len(e.member);
      if total + len <= limit then
        var rest := Scan(z, cursor + 1, total + len, limit, Next(f));
        ScanState([e] + rest.kept, rest.zset, rest.ok)
      else if Fails(Next(f)) then ScanState([], z, false)
      else
        assert HasMember(z, e.member);
        Scan(Remove(z, e.member), cursor + 1, total, limit, Next(Next(f)))
  }

  /** The scan keeps a well-formed set and only ever returns or leaves entries it was given. */
  lemma {:induction false} ScanSubset(z: seq<Entry>, cursor: nat, total: nat, limit: nat, f: Fault)
    requires IsZSet(z)
    ensures var s := Scan(z, cursor, total, limit, f);
      && IsZSet(s.zset)
      && (forall x :: x in s.kept ==> x in z)
      && (forall x :: x in s.zset ==> x in z)
    decreases |z| - cursor
  {
    if !Fails(f) && cursor < |z| {
      var e := z[|z| - 1 - cursor];
      var next := total + Utf8Len(e.member);
      if next <= limit {
        ScanSubset(z, cursor + 1, next, limit, Next(f));
        SubsetKeepStep(z, cursor, total, next, limit, f);
      } else if !Fails(Next(f)) {
        assert HasMember(z, e.member);
        RemoveZSet(z, e.member);
        ScanSubset(Remove(z, e.member), cursor + 1, total, limit, Next(Next(f)));
        SubsetEvictStep(z, cursor, total, limit, f);
      }
    }
  }

  /** `ScanSubset`'s keeping step, given its result for the rest of the scan. */
  lemma SubsetKeepStep(z: seq<Entry>, cursor: nat, total: nat, next: nat, limit: nat, f: Fault)
    requires !Fails(f) && cursor < |z|
    requires next == total + Utf8Len(z[|z| - 1 - cursor].member) <= limit
    requires var r := Scan(z, cursor + 1, next, limit, Next(f));
      && IsZSet(r.zset)
      && (forall x :: x in r.kept ==> x in z)
      && (forall x :: x in r.zset ==> x in z)
    ensures var s := Scan(z, cursor, total, limit, f);
      && IsZSet(s.zset)
      && (forall x :: x in s.kept ==> x in z)
      && (forall x :: x in s.zset ==> x in z)
  {
    var e := z[|z| - 1 - cursor];
    var r := Scan(z, cursor + 1, next, limit, Next(f));
    assert Scan(z, cursor, total, limit, f) == ScanState([e] + r.kept, r.zset, r.ok);
    assert e in z;
  }

  /** `ScanSubset`'s deleting step, given its result for the rest of the scan. */
  lemma SubsetEvictStep(z: seq<Entry>, cursor: nat, total: nat, limit: nat, f: Fault)
    requires !Fails(f) && !Fails(Next(f)) && cursor < |z|
    requires total + Utf8Len(z[|z| - 1 - cursor].member) > limit
    requires var z' := Remove(z, z[|z| - 1 - cursor].member);
      var r := Scan(z', cursor + 1, total, limit, Next(Next(f)));
      && IsZSet(r.zset)
      && (forall x :: x in r.kept ==> x in z')
      && (forall x :: x in r.zset ==> x in z')
      && (forall x :: x in z' ==> x in z)
    ensures var s := Scan(z, cursor, total, limit, f);
      && IsZSet(s.zset)
      && (forall x :: x in s.kept ==> x in z)
      && (forall x :: x in s.zset ==> x in z)
  {
    var z' := Remove(z, z[|z| - 1 - cursor].member);
    assert Scan(z, cursor, total, limit, f) == Scan(z', cursor + 1, total, limit, Next(Next(f)));
  }

  // ---------------------------------------------------------------------------
  // The same scan described on a snapshot
  // ---------------------------------------------------------------------------

  /**
    The outcome of trimming a history: the kept entries (newest first), the
    entries that remain stored (oldest first), and the deleted ones.
  */
  datatype Trim = Trim(kept: seq<Entry>, survivors: seq<Entry>, evicted: seq<Entry>)

  /**
    The scan over the entries `low` not yet visited, described on the snapshot:
    the newest entry is kept when it fits; otherwise it is deleted and the
    entry just below it is passed over and survives without being read.
  */
  function Walk(low: seq<Entry>, total: nat, limit: nat): Trim
    decreases |low|
  {
    if low == [] then Trim([], [], [])
    else
      var e := low[|low| - 1];
      var rest := low[..|low| - 1];
      var len := Utf8Len(e.member);
      if total + len <= limit then
        var t := Walk(rest, total + len, limit);
        Trim([e] + t.kept, t.survivors + [e], t.evicted)
      else if rest == [] then Trim([], [], [e])
      else
        var t := Walk(rest[..|rest| - 1], total, limit);
        Trim(t.kept, t.survivors + [rest[|rest| - 1]], [e] + t.evicted)
  }

  /**
    The live scan of a whole set without faults is the walk over it: with
    `z` split into the unvisited part `low` and the entries `high` already
    visited and kept, scanning on from `cursor`, which is `|high|`, behaves
    as walking `low`.
  */
  lemma {:induction false} ScanWalk(z: seq<Entry>, low: seq<Entry>, high: seq<Entry>, cursor: nat, total: nat, limit: nat)
    requires z == low + high && Distinct(z) && cursor == |high|
    ensures var w := Walk(low, total, limit);
      Scan(z, cursor, total, limit, None) == ScanState(w.kept, w.survivors + high, true)
    decreases |low|, 2
  {
    if low == [] {
      assert z == high;
    } else if total + Utf8Len(low[|low| - 1].member) <= limit {
      ScanWalkKeep(z, low, high, cursor, total, limit);
    } else {
      ScanWalkDrop(z, low, high, cursor, total, limit);
    }
  }

  /** The step of `ScanWalk` that keeps the newest unvisited entry. */
  lemma {:induction false} ScanWalkKeep(z: seq<Entry>, low: seq<Entry>, high: seq<Entry>, cursor: nat, total: nat, limit: nat)
    requires z == low + high && Distinct(z) && low != [] && cursor == |high|
    requires total + Utf8Len(low[|low| - 1].member) <= limit
    ensures var w := Walk(low, total, limit);
      Scan(z, cursor, total, limit, None) == ScanState(w.kept, w.survivors + high, true)
    decreases |low|, 1
  {
    var next := total + Utf8Len(low[|low| - 1].member);
    ScanWalkRest(z, low, high, cursor, next, limit);
    KeepCombine(z, low, high, cursor, total, next, limit);
  }

  /** Puts the scan's keeping step together with the walk's, given the scan of what follows. */
  lemma KeepCombine(z: seq<Entry>, low: seq<Entry>, high: seq<Entry>, cursor: nat, total: nat, next: nat, limit: nat)
    requires z == low + high && low != [] && cursor == |high|
    requires next == total + Utf8Len(low[|low| - 1].member) <= limit
    requires var t := Walk(low[..|low| - 1], next, limit);
      Scan(z, cursor + 1, next, limit, None) == ScanState(t.kept, t.survivors + ([low[|low| - 1]] + high), true)
    ensures var w := Walk(low, total, limit);
      Scan(z, cursor, total, limit, None) == ScanState(w.kept, w.survivors + high, true)
  {
    var e := low[|low| - 1];
    assert z[|z| - 1 - cursor] == e;
    ScanKeepStep(z, cursor, total, next, limit);
    WalkKeepStep(low, total, next, limit);
    KeepGlue(Scan(z, cursor, total, limit, None), Scan(z, cursor + 1, next, limit, None),
      Walk(low, total, limit), Walk(low[..|low| - 1], next, limit), e, high);
  }

  /** After the newest unvisited entry is kept, the scan goes on as the walk over the rest. */
  lemma {:induction false} ScanWalkRest(z: seq<Entry>, low: seq<Entry>, high: seq<Entry>, cursor: nat, total: nat, limit: nat)
    requires z == low + high && Distinct(z) && low != [] && cursor == |high|
    ensures var t := Walk(low[..|low| - 1], total, limit);
      Scan(z, cursor + 1, total, limit, None) == ScanState(t.kept, t.survivors + ([low[|low| - 1]] + high), true)
    decreases |low|, 0
  {
    SplitLast(low, high);
    ScanWalk(z, low[..|low| - 1], [low[|low| - 1]] + high, cursor + 1, total, limit);
  }

  /** Combines the scan's and the walk's keeping steps. */
  lemma KeepGlue(sc: ScanState, r: ScanState, w: Trim, t: Trim, e: Entry, high: seq<Entry>)
    requires sc == ScanState([e] + r.kept, r.zset, r.ok)
    requires r == ScanState(t.kept, t.survivors + ([e] + high), true)
    requires w == Trim([e] + t.kept, t.survivors + [e], t.evicted)
    ensures sc == ScanState(w.kept, w.survivors + high, true)
  {
    AppendAssoc(t.survivors, [e], high);
  }

  /** The step of `ScanWalk` that deletes the newest unvisited entry and passes over the next one. */
  lemma {:induction false} ScanWalkDrop(z: seq<Entry>, low: seq<Entry>, high: seq<Entry>, cursor: nat, total: nat, limit: nat)
    requires z == low + high && Distinct(z) && low != [] && cursor == |high|
    requires total + Utf8Len(low[|low| - 1].member) > limit
    ensures var w := Walk(low, total, limit);
      Scan(z, cursor, total, limit, None) == ScanState(w.kept, w.survivors + high, true)
    decreases |low|, 0
  {
    var rest := low[..|low| - 1];
    ScanDropStep(z, low, high, cursor, total, limit);
    if rest == [] {
      DropLone(z, low, high, cursor, total, limit);
    } else {
      ScanWalkRest(rest + high, rest, high, cursor, total, limit);
      DropCombine(z, low, high, cursor, total, limit);
    }
  }

  /** Deleting the only unvisited entry leaves the entries already visited. */
  lemma DropLone(z: seq<Entry>, low: seq<Entry>, high: seq<Entry>, cursor: nat, total: nat, limit: nat)
    requires |low| == 1 && cursor == |high|
    requires total + Utf8Len(low[0].member) > limit
    requires Scan(z, cursor, total, limit, None) == Scan(low[..0] + high, cursor + 1, total, limit, None)
    ensures var w := Walk(low, total, limit);
      Scan(z, cursor, total, limit, None) == ScanState(w.kept, w.survivors + high, true)
  {
    assert low[..0] + high == high;
    assert Walk(low, total, limit) == Trim([], [], [low[0]]);
    assert [] + high == high;
  }

  /** Puts the scan's deletion step together with the walk's, given the scan of what follows. */
  lemma DropCombine(z: seq<Entry>, low: seq<Entry>, high: seq<Entry>, cursor: nat, total: nat, limit: nat)
    requires |low| >= 2 && total + Utf8Len(low[|low| - 1].member) > limit
    requires Scan(z, cursor, total, limit, None) == Scan(low[..|low| - 1] + high, cursor + 1, total, limit, None)
    requires var rest := low[..|low| - 1];
      var t := Walk(rest[..|rest| - 1], total, limit);
      Scan(rest + high, cursor + 1, total, limit, None) == ScanState(t.kept, t.survivors + ([rest[|rest| - 1]] + high), true)
    ensures var w := Walk(low, total, limit);
      Scan(z, cursor, total, limit, None) == ScanState(w.kept, w.survivors + high, true)
  {
    WalkDropStep(low, total, limit);
    var rest := low[..|low| - 1];
    AppendAssoc(Walk(rest[..|rest| - 1], total, limit).survivors, [rest[|rest| - 1]], high);
  }

  lemma AppendAssoc<T>(a: seq<T>, b: seq<T>, c: seq<T>)
    ensures a + (b + c) == (a + b) + c
  {
  }

  lemma SplitLast<T>(a: seq<T>, b: seq<T>)
    requires a != []
    ensures a[..|a| - 1] + ([a[|a| - 1]] + b) == a + b
  {
  }

  /**
    The outcome of the read loop part-way: `kept` is what it has taken so
    far, and the scan of `z` from `cursor` on supplies the rest.
  */
  function Resumed(kept: seq<Entry>, z: seq<Entry>, cursor: nat, total: nat, limit: nat, f: Fault): ScanState
  {
    var s := Scan(z, cursor, total, limit, f);
    ScanState(kept + s.kept, s.zset, s.ok)
  }

  /**
    Keeping the entry `e` at the cursor moves it to the taken part and charges
    its bytes; the primed arguments are the state after the step.
  */
  lemma ResumeKeep(kept: seq<Entry>, z: seq<Entry>, cursor: nat, total: nat, limit: nat, f: Fault,
                   e: Entry, kept': seq<Entry>, total': nat, f': Fault)
    requires !Fails(f) && cursor < |z| && e == z[|z| - 1 - cursor]
    requires total' == total + Utf8Len(e.member) <= limit
    requires kept' == kept + [e] && f' == Next(f)
    ensures Resumed(kept', z, cursor + 1, total', limit, f') == Resumed(kept, z, cursor, total, limit, f)
  {
    var rest := Scan(z, cursor + 1, total', limit, f');
    assert kept + ([e] + rest.kept) == kept' + rest.kept;
  }

  /** The read loop's invariant: what is left to scan, resumed after what was taken, is the whole scan. */
  ghost predicate ReadState(s0: ScanState, kept: seq<Entry>, z: seq<Entry>, cursor: nat, total: nat, limit: nat,
                            f: Fault, trimmed: seq<Message>)
  {
    && AllCanonical(z) && AllCanonical(kept) && trimmed == Decoded(kept)
    && s0 == Resumed(kept, z, cursor, total, limit, f)
  }

  /** The read loop's invariant holds before the first iteration. */
  lemma ReadStart(s0: ScanState, z: seq<Entry>, total: nat, limit: nat, f: Fault)
    requires AllCanonical(z) && s0 == Scan(z, 0, total, limit, f)
    ensures ReadState(s0, [], z, 0, total, limit, f, [])
  {
    assert [] + s0.kept == s0.kept;
  }

  /** The entry at the cursor decodes. */
  lemma ReadAt(s0: ScanState, kept: seq<Entry>, z: seq<Entry>, cursor: nat, total: nat, limit: nat,
               f: Fault, trimmed: seq<Message>)
    requires ReadState(s0, kept, z, cursor, total, limit, f, trimmed) && cursor < |z|
    ensures FromJson(z[|z| - 1 - cursor].member).Some?
  {
    assert z[|z| - 1 - cursor] in z;
    CanonicalDecodes(z[|z| - 1 - cursor].member);
  }

  /** One keeping iteration of the read loop keeps its invariant. */
  lemma TakeStep(s0: ScanState, kept: seq<Entry>, z: seq<Entry>, cursor: nat, total: nat, next: nat, limit: nat,
                 f: Fault, trimmed: seq<Message>)
    requires ReadState(s0, kept, z, cursor, total, limit, f, trimmed)
    requires !Fails(f) && cursor < |z| && next == total + Utf8Len(z[|z| - 1 - cursor].member) <= limit
    ensures var e := z[|z| - 1 - cursor];
      && FromJson(e.member).Some?
      && ReadState(s0, kept + [e], z, cursor + 1, next, limit, Next(f), trimmed + [FromJson(e.member).value])
  {
    var e := z[|z| - 1 - cursor];
    assert e in z;
    CanonicalDecodes(e.member);
    DecodedAppend(kept, e);
    ResumeKeep(kept, z, cursor, total, limit, f, e, kept + [e], next, Next(f));
  }

  /** One deleting iteration of the read loop keeps its invariant. */
  lemma EvictStep(s0: ScanState, kept: seq<Entry>, z: seq<Entry>, cursor: nat, total: nat, limit: nat,
                  f: Fault, trimmed: seq<Message>)
    requires ReadState(s0, kept, z, cursor, total, limit, f, trimmed)
    requires !Fails(f) && !Fails(Next(f)) && cursor < |z| && total + Utf8Len(z[|z| - 1 - cursor].member) > limit
    ensures ReadState(s0, kept, Remove(z, z[|z| - 1 - cursor].member), cursor + 1, total, limit, Next(Next(f)), trimmed)
  {
    var e := z[|z| - 1 - cursor];
    ResumeEvict(kept, z, cursor, total, limit, f, e, Remove(z, e.member), Next(Next(f)));
  }

  /** When the read loop stops, the taken part and the set left are the whole scan's. */
  lemma ReadEnd(s0: ScanState, kept: seq<Entry>, z: seq<Entry>, cursor: nat, total: nat, limit: nat,
                f: Fault, trimmed: seq<Message>)
    requires ReadState(s0, kept, z, cursor, total, limit, f, trimmed)
    requires || Fails(f) || cursor >= |z|
             || (cursor < |z| && total + Utf8Len(z[|z| - 1 - cursor].member) > limit && Fails(Next(f)))
    ensures s0 == ScanState(kept, z, !Fails(f) && cursor >= |z|)
    ensures AllCanonical(kept) && trimmed == Decoded(kept)
  {
    ResumeEnd(kept, z, cursor, total, limit, f);
  }

  /** Deleting the entry `e` at the cursor leaves the taken part as it is. */
  lemma ResumeEvict(kept: seq<Entry>, z: seq<Entry>, cursor: nat, total: nat, limit: nat, f: Fault,
                    e: Entry, z': seq<Entry>, f': Fault)
    requires !Fails(f) && !Fails(Next(f)) && cursor < |z| && e == z[|z| - 1 - cursor]
    requires total + Utf8Len(e.member) > limit
    requires z' == Remove(z, e.member) && f' == Next(Next(f))
    ensures Resumed(kept, z', cursor + 1, total, limit, f') == Resumed(kept, z, cursor, total, limit, f)
  {
    assert HasMember(z, e.member);
  }

  /** The loop ends past the last rank, or on a failed ZREVRANGE or ZREM. */
  lemma ResumeEnd(kept: seq<Entry>, z: seq<Entry>, cursor: nat, total: nat, limit: nat, f: Fault)
    requires || Fails(f) || cursor >= |z|
             || (cursor < |z| && total + Utf8Len(z[|z| - 1 - cursor].member) > limit && Fails(Next(f)))
    ensures Resumed(kept, z, cursor, total, limit, f) == ScanState(kept, z, !Fails(f) && cursor >= |z|)
  {
    assert kept + [] == kept;
  }

  /** Without faults, an entry that fits is kept and the scan moves one rank on. */
  lemma ScanKeepStep(z: seq<Entry>, cursor: nat, total: nat, next: nat, limit: nat)
    requires cursor < |z| && next == total + Utf8Len(z[|z| - 1 - cursor].member) <= limit
    ensures var r := Scan(z, cursor + 1, next, limit, None);
      Scan(z, cursor, total, limit, None) == ScanState([z[|z| - 1 - cursor]] + r.kept, r.zset, r.ok)
  {
  }

  /** Without faults, an entry that does not fit is deleted and the scan moves one rank on. */
  lemma ScanEvictStep(z: seq<Entry>, cursor: nat, total: nat, limit: nat)
    requires cursor < |z| && total + Utf8Len(z[|z| - 1 - cursor].member) > limit
    ensures Scan(z, cursor, total, limit, None)
      == Scan(Remove(z, z[|z| - 1 - cursor].member), cursor + 1, total, limit, None)
  {
    assert HasMember(z, z[|z| - 1 - cursor].member);
  }

  /** The same step with the set split at the cursor. */
  lemma ScanDropStep(z: seq<Entry>, low: seq<Entry>, high: seq<Entry>, cursor: nat, total: nat, limit: nat)
    requires z == low + high && Distinct(z) && low != [] && cursor == |high|
    requires total + Utf8Len(low[|low| - 1].member) > limit
    ensures Scan(z, cursor, total, limit, None) == Scan(low[..|low| - 1] + high, cursor + 1, total, limit, None)
    ensures Distinct(low[..|low| - 1] + high)
  {
    assert z[|z| - 1 - cursor] == low[|low| - 1];
    RemoveLast(low, high);
    ScanEvictStep(z, cursor, total, limit);
  }

  /** The walk's deletion step, unfolded. */
  lemma WalkDropStep(low: seq<Entry>, total: nat, limit: nat)
    requires |low| >= 2
    requires total + Utf8Len(low[|low| - 1].member) > limit
    ensures var rest := low[..|low| - 1];
      var t := Walk(rest[..|rest| - 1], total, limit);
      Walk(low, total, limit) == Trim(t.kept, t.survivors + [rest[|rest| - 1]], [low[|low| - 1]] + t.evicted)
  {
  }

  /** Deleting the newest unvisited entry closes the gap between the two parts. */
  lemma RemoveLast(low: seq<Entry>, high: seq<Entry>)
    requires Distinct(low + high) && low != []
    ensures Remove(low + high, low[|low| - 1].member) == low[..|low| - 1] + high
    ensures Distinct(low[..|low| - 1] + high)
  {
    var z := low + high;
    var k := |low| - 1;
    assert z[k] == low[k];
    assert z[..k] == low[..k];
    assert z[k + 1..] == high;
    RemoveAt(z, k);
    DistinctRemoveAt(z, k);
  }

  /** A whole read without faults, as the walk over the stored set. */
  lemma ScanIsWalk(z: seq<Entry>, total: nat, limit: nat)
    requires IsZSet(z)
    ensures var w := Walk(z, total, limit);
      Scan(z, 0, total, limit, None) == ScanState(w.kept, w.survivors, true)
  {
    assert z + [] == z;
    ScanWalk(z, z, [], 0, total, limit);
    assert Walk(z, total, limit).survivors + [] == Walk(z, total, limit).survivors;
  }

  // ---------------------------------------------------------------------------
  // What the walk guarantees
  // ---------------------------------------------------------------------------

  /**
    The kept entries fit the budget together with the bytes already charged;
    when the new message alone exceeds it, nothing is kept.
  */
  lemma {:induction false} WalkBudget(low: seq<Entry>, total: nat, limit: nat)
    ensures var w := Walk(low, total, limit);
      && (w.kept == [] || total + SumLen(w.kept) <= limit)
      && (total > limit ==> w.kept == [])
    decreases |low|
  {
    if low != [] {
      var e := low[|low| - 1];
      var rest := low[..|low| - 1];
      var len := Utf8Len(e.member);
      if total + len <= limit {
        WalkBudget(rest, total + len, limit);
        assert ([e] + Walk(rest, total + len, limit).kept)[1..] == Walk(rest, total + len, limit).kept;
      } else if rest != [] {
        WalkBudget(rest[..|rest| - 1], total, limit);
      }
    }
  }

  /** The walk's keeping step, unfolded. */
  lemma WalkKeepStep(low: seq<Entry>, total: nat, next: nat, limit: nat)
    requires low != []
    requires next == total + Utf8Len(low[|low| - 1].member) <= limit
    ensures var e := low[|low| - 1];
      var t := Walk(low[..|low| - 1], next, limit);
      Walk(low, total, limit) == Trim([e] + t.kept, t.survivors + [e], t.evicted)
  {
  }

  /** The kept entries stay stored. */
  lemma {:induction false} WalkKeptStay(low: seq<Entry>, total: nat, limit: nat)
    ensures var w := Walk(low, total, limit); forall x :: x in w.kept ==> x in w.survivors
    decreases |low|
  {
    if low != [] {
      var e := low[|low| - 1];
      var rest := low[..|low| - 1];
      if total + Utf8Len(e.member) <= limit {
        WalkKeptStay(rest, total + Utf8Len(e.member), limit);
        WalkKeepStep(low, total, total + Utf8Len(e.member), limit);
      } else if rest != [] {
        WalkKeptStay(rest[..|rest| - 1], total, limit);
        WalkDropStep(low, total, limit);
      }
    }
  }

  /** Each entry either stays stored or is deleted, and nothing else is stored or deleted. */
  lemma {:induction false} WalkPartition(low: seq<Entry>, total: nat, limit: nat)
    ensures var w := Walk(low, total, limit);
      && |w.survivors| + |w.evicted| == |low|
      && (forall x :: x in low <==> x in w.survivors || x in w.evicted)
    decreases |low|
  {
    if low != [] {
      var rest := low[..|low| - 1];
      var next := total + Utf8Len(low[|low| - 1].member);
      if next <= limit {
        WalkPartition(rest, next, limit);
        PartitionKeep(low, total, next, limit);
      } else if rest != [] {
        WalkPartition(rest[..|rest| - 1], total, limit);
        PartitionDrop(low, total, limit);
      } else {
        assert low == [low[0]];
      }
    }
  }

  /** `w` splits the entries of `low` between the stored and the deleted ones. */
  ghost predicate Partitions(low: seq<Entry>, w: Trim)
  {
    && |w.survivors| + |w.evicted| == |low|
    && (forall x :: x in low <==> x in w.survivors || x in w.evicted)
  }

  /** The keeping step of `WalkPartition`. */
  lemma PartitionKeep(low: seq<Entry>, total: nat, next: nat, limit: nat)
    requires low != [] && next == total + Utf8Len(low[|low| - 1].member) <= limit
    requires Partitions(low[..|low| - 1], Walk(low[..|low| - 1], next, limit))
    ensures Partitions(low, Walk(low, total, limit))
  {
    WalkKeepStep(low, total, next, limit);
    KeepGlueParts(low, low[..|low| - 1], low[|low| - 1], Walk(low[..|low| - 1], next, limit), Walk(low, total, limit));
  }

  /** Keeping `e` adds it to the stored side of the partition. */
  lemma KeepGlueParts(low: seq<Entry>, front: seq<Entry>, e: Entry, t: Trim, w: Trim)
    requires low != [] && front == low[..|low| - 1] && e == low[|low| - 1]
    requires w == Trim([e] + t.kept, t.survivors + [e], t.evicted)
    requires Partitions(front, t)
    ensures Partitions(low, w)
  {
    assert low == front + [e];
  }

  /** The deleting step of `WalkPartition`. */
  lemma PartitionDrop(low: seq<Entry>, total: nat, limit: nat)
    requires |low| >= 2 && total + Utf8Len(low[|low| - 1].member) > limit
    requires var rest := low[..|low| - 1]; Partitions(rest[..|rest| - 1], Walk(rest[..|rest| - 1], total, limit))
    ensures Partitions(low, Walk(low, total, limit))
  {
    WalkDropStep(low, total, limit);
    var rest := low[..|low| - 1];
    SplitLastTwo(low);
    PartitionGlue(low, rest[..|rest| - 1], rest[|rest| - 1], low[|low| - 1],
      Walk(rest[..|rest| - 1], total, limit), Walk(low, total, limit));
  }

  lemma SplitLastTwo<T>(s: seq<T>)
    requires |s| >= 2
    ensures var rest := s[..|s| - 1]; s == rest[..|rest| - 1] + [rest[|rest| - 1], s[|s| - 1]]
  {
    var rest := s[..|s| - 1];
    assert rest == rest[..|rest| - 1] + [rest[|rest| - 1]];
    assert s == rest + [s[|s| - 1]];
  }

  /** Passing over `a` and deleting `b` adds one entry to each side of the partition. */
  lemma PartitionGlue(low: seq<Entry>, front: seq<Entry>, a: Entry, b: Entry, t: Trim, w: Trim)
    requires low == front + [a, b]
    requires w == Trim(t.kept, t.survivors + [a], [b] + t.evicted)
    requires Partitions(front, t)
    ensures Partitions(low, w)
  {
  }

  /** In a well-formed set no entry both stays stored and is deleted. */
  lemma {:induction false} WalkDisjoint(low: seq<Entry>, total: nat, limit: nat)
    requires Distinct(low)
    ensures var w := Walk(low, total, limit); forall x :: x in w.survivors ==> x !in w.evicted
    decreases |low|
  {
    if low != [] {
      var rest := low[..|low| - 1];
      var next := total + Utf8Len(low[|low| - 1].member);
      DistinctInit(low);
      if next <= limit {
        WalkDisjoint(rest, next, limit);
        DisjointKeep(low, total, next, limit);
      } else if rest != [] {
        DistinctInit(rest);
        WalkDisjoint(rest[..|rest| - 1], total, limit);
        DisjointDrop(low, total, limit);
      }
    }
  }

  /** The keeping step of `WalkDisjoint`. */
  lemma DisjointKeep(low: seq<Entry>, total: nat, next: nat, limit: nat)
    requires Distinct(low) && low != [] && next == total + Utf8Len(low[|low| - 1].member) <= limit
    requires var t := Walk(low[..|low| - 1], next, limit); forall x :: x in t.survivors ==> x !in t.evicted
    ensures var w := Walk(low, total, limit); forall x :: x in w.survivors ==> x !in w.evicted
  {
    DistinctInit(low);
    WalkPartition(low[..|low| - 1], next, limit);
    WalkKeepStep(low, total, next, limit);
  }

  /** The deletion step of `WalkDisjoint`; `low` holds no member twice. */
  lemma DisjointDrop(low: seq<Entry>, total: nat, limit: nat)
    requires |low| >= 2 && total + Utf8Len(low[|low| - 1].member) > limit
    requires var rest := low[..|low| - 1];
      && (forall x :: x in rest ==> x.member != low[|low| - 1].member)
      && (forall x :: x in rest[..|rest| - 1] ==> x.member != rest[|rest| - 1].member)
    requires var rest := low[..|low| - 1];
      var t := Walk(rest[..|rest| - 1], total, limit); forall x :: x in t.survivors ==> x !in t.evicted
    ensures var w := Walk(low, total, limit); forall x :: x in w.survivors ==> x !in w.evicted
  {
    var rest := low[..|low| - 1];
    var rest' := rest[..|rest| - 1];
    assert forall x :: x in rest' ==> x in rest;
    WalkPartition(rest', total, limit);
    WalkDropStep(low, total, limit);
  }

  /**
    Every deleted entry was deleted for lack of room: it does not fit next to
    what the scan finally keeps.
  */
  lemma {:induction false} WalkEvictedDoNotFit(low: seq<Entry>, total: nat, limit: nat)
    ensures var w := Walk(low, total, limit);
      forall x :: x in w.evicted ==> total + SumLen(w.kept) + Utf8Len(x.member) > limit
    decreases |low|
  {
    if low != [] {
      var e := low[|low| - 1];
      var rest := low[..|low| - 1];
      var len := Utf8Len(e.member);
      if total + len <= limit {
        WalkEvictedDoNotFit(rest, total + len, limit);
        var t := Walk(rest, total + len, limit);
        assert ([e] + t.kept)[1..] == t.kept;
      } else if rest != [] {
        WalkEvictedDoNotFit(rest[..|rest| - 1], total, limit);
      }
    }
  }

  /** `b` appears in `a` in order, possibly with gaps. */
  predicate IsSubseq<T(==)>(b: seq<T>, a: seq<T>)
    decreases |a|
  {
    |b| == 0
    || (|a| > 0
        && ((b[|b| - 1] == a[|a| - 1] && IsSubseq(b[..|b| - 1], a[..|a| - 1]))
            || IsSubseq(b, a[..|a| - 1])))
  }

  lemma {:induction false} SubseqIn<T>(b: seq<T>, a: seq<T>)
    requires IsSubseq(b, a)
    ensures forall x :: x in b ==> x in a
    decreases |a|
  {
    if |b| > 0 {
      assert a == a[..|a| - 1] + [a[|a| - 1]];
      if b[|b| - 1] == a[|a| - 1] && IsSubseq(b[..|b| - 1], a[..|a| - 1]) {
        SubseqIn(b[..|b| - 1], a[..|a| - 1]);
        assert b == b[..|b| - 1] + [b[|b| - 1]];
      } else {
        SubseqIn(b, a[..|a| - 1]);
      }
    }
  }

  /** A subsequence of a set in rank order is in rank order. */
  lemma {:induction false} SubseqOrdered(b: seq<Entry>, a: seq<Entry>)
    requires IsSubseq(b, a) && Ordered(a)
    ensures Ordered(b)
    decreases |a|
  {
    if |b| > 0 {
      var a' := a[..|a| - 1];
      if b[|b| - 1] == a[|a| - 1] && IsSubseq(b[..|b| - 1], a') {
        var b' := b[..|b| - 1];
        SubseqOrdered(b', a');
        SubseqIn(b', a');
        forall i, j | 0 <= i < j < |b| ensures Below(b[i], b[j]) {
          if j == |b| - 1 {
            assert b[i] in b';
            var k :| 0 <= k < |a'| && a'[k] == b[i];
            assert a[k] == b[i];
          } else {
            assert b[i] == b'[i] && b[j] == b'[j];
          }
        }
      } else {
        SubseqOrdered(b, a');
      }
    }
  }

  lemma SubseqAppendBoth<T>(b: seq<T>, a: seq<T>, x: T)
    requires IsSubseq(b, a)
    ensures IsSubseq(b + [x], a + [x])
  {
    assert (b + [x])[..|b|] == b;
    assert (a + [x])[..|a|] == a;
  }

  /** Read oldest first, the kept entries are a subsequence of the stored set. */
  lemma {:induction false} WalkKeptSubseq(low: seq<Entry>, total: nat, limit: nat)
    ensures IsSubseq(Reverse(Walk(low, total, limit).kept), low)
    decreases |low|
  {
    if low != [] {
      var rest := low[..|low| - 1];
      var next := total + Utf8Len(low[|low| - 1].member);
      if next <= limit {
        WalkKeptSubseq(rest, next, limit);
        KeptSubseqKeep(low, total, next, limit);
      } else if rest != [] {
        WalkKeptSubseq(rest[..|rest| - 1], total, limit);
        KeptSubseqDrop(low, total, limit);
      }
    }
  }

  /** The keeping step of `WalkKeptSubseq`. */
  lemma KeptSubseqKeep(low: seq<Entry>, total: nat, next: nat, limit: nat)
    requires low != [] && next == total + Utf8Len(low[|low| - 1].member) <= limit
    requires IsSubseq(Reverse(Walk(low[..|low| - 1], next, limit).kept), low[..|low| - 1])
    ensures IsSubseq(Reverse(Walk(low, total, limit).kept), low)
  {
    var e := low[|low| - 1];
    var rest := low[..|low| - 1];
    var t := Walk(rest, next, limit);
    WalkKeepStep(low, total, next, limit);
    assert ([e] + t.kept)[1..] == t.kept;
    assert Reverse([e] + t.kept) == Reverse(t.kept) + [e];
    SubseqAppendBoth(Reverse(t.kept), rest, e);
    assert low == rest + [e];
  }

  /** The deletion step of `WalkKeptSubseq`. */
  lemma KeptSubseqDrop(low: seq<Entry>, total: nat, limit: nat)
    requires |low| >= 2 && total + Utf8Len(low[|low| - 1].member) > limit
    requires var rest := low[..|low| - 1];
      IsSubseq(Reverse(Walk(rest[..|rest| - 1], total, limit).kept), rest[..|rest| - 1])
    ensures IsSubseq(Reverse(Walk(low, total, limit).kept), low)
  {
    WalkDropStep(low, total, limit);
    assert low[..|low| - 1][..|low| - 2] == low[..|low| - 2];
    SubseqPrefix(Reverse(Walk(low[..|low| - 2], total, limit).kept), low, |low| - 2);
  }

  /** A subsequence of a prefix is a subsequence of the whole. */
  lemma {:induction false} SubseqPrefix<T>(b: seq<T>, a: seq<T>, n: nat)
    requires n <= |a| && IsSubseq(b, a[..n])
    ensures IsSubseq(b, a)
    decreases |a|
  {
    if n == |a| {
      assert a[..n] == a;
    } else {
      assert a[..|a| - 1][..n] == a[..n];
      SubseqPrefix(b, a[..|a| - 1], n);
    }
  }

  /** The kept turns come back in chronological (rank) order. */
  lemma WalkKeptChronological(low: seq<Entry>, total: nat, limit: nat)
    requires IsZSet(low)
    ensures Ordered(Reverse(Walk(low, total, limit).kept))
  {
    WalkKeptSubseq(low, total, limit);
    SubseqOrdered(Reverse(Walk(low, total, limit).kept), low);
  }

  /**
    When the newest unread entry does not fit, it is deleted, and the entry
    just below it is never looked at: it stays stored but is not returned.
  */
  lemma SkipAfterEviction(low: seq<Entry>, total: nat, limit: nat)
    requires Distinct(low) && |low| >= 2
    requires total + Utf8Len(low[|low| - 1].member) > limit
    ensures var w := Walk(low, total, limit);
      && low[|low| - 1] in w.evicted
      && low[|low| - 2] in w.survivors
      && low[|low| - 2] !in w.kept
  {
    var rest := low[..|low| - 1];
    var rest' := rest[..|rest| - 1];
    var s := rest[|rest| - 1];
    WalkDropStep(low, total, limit);
    WalkKeptStay(rest', total, limit);
    WalkPartition(rest', total, limit);
    DistinctInit(low);
    DistinctInit(rest);
    assert s == low[|low| - 2];
  }

  /**
    A history of three 20-byte turns, a 50-byte budget and a 15-byte new
    message: the newest turn is kept, the middle one is deleted, and the oldest
    is passed over — it is neither returned nor deleted.
  */
  lemma ThreeTurnScenario(a: Entry, b: Entry, c: Entry)
    requires Utf8Len(a.member) == 20 && Utf8Len(b.member) == 20 && Utf8Len(c.member) == 20
    ensures Walk([a, b, c], 15, 50) == Trim([c], [a, c], [b])
  {
    assert [a, b, c][..2] == [a, b];
    assert [a, b][..1] == [a];
    assert [a][..0] == [];
    WalkDropStep([a, b], 35, 50);
    WalkKeepStep([a, b, c], 15, 35, 50);
  }

  /**
    Reading again never returns a deleted turn: a second scan, under any
    budget, only sees what the first left stored.
  */
  lemma EvictedStayGone(low: seq<Entry>, total: nat, limit: nat, total2: nat, limit2: nat)
    requires Distinct(low)
    ensures var w := Walk(low, total, limit);
      forall x :: x in w.evicted ==> x !in Walk(w.survivors, total2, limit2).kept
  {
    var w := Walk(low, total, limit);
    WalkDisjoint(low, total, limit);
    var w2 := Walk(w.survivors, total2, limit2);
    WalkKeptStay(w.survivors, total2, limit2);
    WalkPartition(w.survivors, total2, limit2);

  }

  // ---------------------------------------------------------------------------
  // The effects of the two public operations on the keyspace
  // ---------------------------------------------------------------------------

  /**
    `get_conversation` as a function of the keyspace: the result and the
    keyspace afterwards. The turns come back oldest first.
  */
  function ReadWindow(ks: Keyspace, key: string, current: nat, limit: nat, f: Fault): (Result<seq<Message>, StoreError>, Keyspace)
    requires HistoryValid(ks)
  {
    if Fails(f) then (Err(StoreError), ks)
    else
      var z := Get(ks, key);
      var s := Scan(z, 0, current, limit, Next(f));
      ScanSubset(z, 0, current, limit, Next(f));
      (if s.ok then Ok(Reverse(Decoded(s.kept))) else Err(StoreError), Put(ks, key, s.zset))
  }

  /** Reading keeps every history well-formed. */
  lemma ReadKeepsValid(ks: Keyspace, key: string, current: nat, limit: nat, f: Fault)
    requires HistoryValid(ks)
    ensures HistoryValid(ReadWindow(ks, key, current, limit, f).1)
  {
    if !Fails(f) {
      var z := Get(ks, key);
      ScanSubset(z, 0, current, limit, Next(f));
      PutValid(ks, key, Scan(z, 0, current, limit, Next(f)).zset);
    }
  }

  /** A read without faults is the walk over the stored set. */
  lemma ReadIsWalk(ks: Keyspace, key: string, current: nat, limit: nat)
    requires HistoryValid(ks)
    ensures var w := Walk(Get(ks, key), current, limit);
      && AllCanonical(w.kept)
      && ReadWindow(ks, key, current, limit, None) == (Ok(Reverse(Decoded(w.kept))), Put(ks, key, w.survivors))
  {
    var z := Get(ks, key);
    ScanIsWalk(z, current, limit);
    ScanSubset(z, 0, current, limit, None);
  }

  /**
    A read without faults returns, oldest first, the stored messages the walk
    keeps, in rank order and within the budget next to the new message.
  */
  lemma ReadReturnsKept(ks: Keyspace, key: string, current: nat, limit: nat)
    requires HistoryValid(ks)
    ensures var w := Walk(Get(ks, key), current, limit);
      var r := ReadWindow(ks, key, current, limit, None).0;
      && r.Ok?
      && |r.value| == |w.kept|
      && (forall i :: 0 <= i < |w.kept| ==> ToJson(r.value[i]) == w.kept[|w.kept| - 1 - i].member)
      && Ordered(Reverse(w.kept))
      && (r.value == [] || current + JsonLen(r.value) <= limit)
  {
    var z := Get(ks, key);
    ReadIsWalk(ks, key, current, limit);
    var w := Walk(z, current, limit);
    WalkBudget(z, current, limit);
    WalkKeptChronological(z, current, limit);
    DecodedJsonLen(w.kept);
    JsonLenReverse(Decoded(w.kept));
  }

  /** A read without faults leaves exactly the walk's survivors stored and no other history changed. */
  lemma ReadStores(ks: Keyspace, key: string, current: nat, limit: nat)
    requires HistoryValid(ks)
    ensures var ks' := ReadWindow(ks, key, current, limit, None).1;
      && Get(ks', key) == Walk(Get(ks, key), current, limit).survivors
      && (forall k :: k != key ==> Get(ks', k) == Get(ks, k))
  {
    ReadIsWalk(ks, key, current, limit);
  }

  /**
    `store_message` as a function of the keyspace: acquire a connection, ZADD
    the member with the score, then EXPIRE the key. A failed call returns the
    error with the earlier calls' effects in place.
  */
  function StoreEffect(ks: Keyspace, key: string, member: string, score: int, duration: int, f: Fault): (Result<(), StoreError>, Keyspace)
  {
    if Fails(f) || Fails(Next(f)) then (Err(StoreError), ks)
    else
      var ks1 := ZAddK(ks, key, member, score);
      if Fails(Next(Next(f))) then (Err(StoreError), ks1)
      else (Ok(()), ExpireK(ks1, key, duration))
  }

  /** Storing a message keeps every history well-formed. */
  lemma StoreKeepsValid(ks: Keyspace, key: string, m: Message, score: int, duration: int, f: Fault)
    requires HistoryValid(ks)
    ensures HistoryValid(StoreEffect(ks, key, ToJson(m), score, duration, f).1)
  {
    ZAddKeepsValid(ks, key, m, score);
    ExpireKeepsValid(ZAddK(ks, key, ToJson(m), score), key, duration);
  }

  lemma ZAddKeepsValid(ks: Keyspace, key: string, m: Message, score: int)
    requires HistoryValid(ks)
    ensures HistoryValid(ZAddK(ks, key, ToJson(m), score))
  {
    var json := ToJson(m);
    var z := Get(ks, key);
    AddSpec(z, json, score);
    assert AllCanonical(Add(z, json, score));
    PutValid(ks, key, Add(z, json, score));
  }

  lemma ExpireKeepsValid(ks: Keyspace, key: string, seconds: int)
    requires HistoryValid(ks)
    ensures HistoryValid(ExpireK(ks, key, seconds))
  {
  }

  /**
    A store without faults puts the member in the set exactly once, with the
    given score, leaves every other member of the set and every other key as
    they were, and sets the key's TTL to the cache duration; a non-positive
    duration deletes the whole history.
  */
  lemma StoreSpec(ks: Keyspace, key: string, member: string, score: int, duration: int)
    requires ValidKs(ks)
    ensures var (r, ks') := StoreEffect(ks, key, member, score, duration, None);
      && r == Ok(())
      && (duration > 0 ==>
            && (forall x :: x in Get(ks', key) <==> x == Entry(member, score) || (x in Get(ks, key) && x.member != member))
            && key in ks'.ttls && ks'.ttls[key] == duration)
      && (duration <= 0 ==> key !in ks'.zsets && key !in ks'.ttls)
      && (forall k :: k != key ==> Get(ks', k) == Get(ks, k))
      && (forall k :: k != key ==> (k in ks'.ttls <==> k in ks.ttls))
      && (forall k :: k != key && k in ks.ttls ==> ks'.ttls[k] == ks.ttls[k])
  {
    var z := Get(ks, key);
    AddSpec(z, member, score);
    assert Entry(member, score) in Add(z, member, score);
  }

  /** A failing EXPIRE leaves the member added but the TTL as it was. */
  lemma StoreExpireFails(ks: Keyspace, key: string, member: string, score: int, duration: int)
    requires ValidKs(ks)
    ensures var (r, ks') := StoreEffect(ks, key, member, score, duration, Some(2));
      && r.Err?
      && Entry(member, score) in Get(ks', key)
      && ks'.ttls == ks.ttls
  {
    var z := Get(ks, key);
    AddSpec(z, member, score);
    assert Entry(member, score) in Add(z, member, score);
  }

  /** A turn stored with a timestamp later than all others is the first one the next read sees. */
  lemma StoreNewest(ks: Keyspace, key: string, member: string, score: int, duration: int)
    requires ValidKs(ks) && duration > 0
    requires forall x :: x in Get(ks, key) ==> x.score < score
    ensures RevAt(Get(StoreEffect(ks, key, member, score, duration, None).1, key), 0) == [member]
  {
    var z := Add(Get(ks, key), member, score);
    StoreGet(ks, key, member, score, duration);
    AddSpec(Get(ks, key), member, score);
    TopRanked(z, Entry(member, score));
  }

  /** Without faults and with a positive duration, the stored set is the ZADD result. */
  lemma StoreGet(ks: Keyspace, key: string, member: string, score: int, duration: int)
    requires duration > 0
    ensures Get(StoreEffect(ks, key, member, score, duration, None).1, key) == Add(Get(ks, key), member, score)
  {
    assert Entry(member, score) in multiset(Add(Get(ks, key), member, score));
  }

  // ---------------------------------------------------------------------------
  // `process_message`
  // ---------------------------------------------------------------------------

  /** One entry of the list `process_message` stores: role, text, timestamp, and the fault its store meets. */
  datatype PendingStore = PendingStore(role: string, content: string, timestamp: Option<int64>, fault: Fault)

  /** The stores, one after the other; a failure is logged and the next store still runs. */
  function StoreAll(ks: Keyspace, key: string, turns: seq<PendingStore>, clock: int64, duration: int): Keyspace
    decreases |turns|
  {
    if turns == [] then ks
    else
      var t := turns[|turns| - 1];
      var ks1 := StoreAll(ks, key, turns[..|turns| - 1], clock, duration);
      StoreEffect(ks1, key, ToJson(Message(t.role, t.content)), t.timestamp.GetOr(clock) as int, duration, t.fault).1
  }

  /** The messages whose stores were attempted. */
  function Attempted(turns: seq<PendingStore>): seq<Message>
  {
    if turns == [] then [] else Attempted(turns[..|turns| - 1]) + [Message(turns[|turns| - 1].role, turns[|turns| - 1].content)]
  }

  /** What `process_message` did: its reply, the history it passed on, the stores it attempted, and the keyspace after. */
  datatype Outcome = Outcome(reply: Result<Option<string>, string>, history: seq<Message>, attempts: seq<Message>, space: Keyspace)

  /**
    `process_message` after the read: the history is the window read (or
    nothing when the read failed) followed by the new message; an answer is
    stored as two turns, anything else is returned as it is.
  */
  function Respond(window: Result<seq<Message>, StoreError>, ks: Keyspace, key: string, message: string,
                   func: seq<Message> -> Result<Option<string>, string>, now: int64, later: int64, duration: int,
                   userFault: Fault, assistantFault: Fault): Outcome
  {
    var history := (if window.Ok? then window.value else []) + [Message("user", message)];
    var answer := func(history);
    if answer.Ok? && answer.value.Some? then
      var turns := [PendingStore("user", message, Some(now), userFault),
                    PendingStore("assistant", answer.value.value, None, assistantFault)];
      Outcome(answer, history, Attempted(turns), StoreAll(ks, key, turns, later, duration))
    else
      Outcome(answer, history, [], ks)
  }

  /**
    `process_message` as a function of the keyspace. `now` is the timestamp
    taken for the user's turn and `later` the clock reading the assistant's
    store uses; `func` is the answering function.
  */
  function Pipeline(ks: Keyspace, key: string, message: string, func: seq<Message> -> Result<Option<string>, string>,
                    now: int64, later: int64, duration: int, limit: nat,
                    readFault: Fault, userFault: Fault, assistantFault: Fault): Outcome
    requires HistoryValid(ks)
  {
    var (window, ks1) := ReadWindow(ks, key, Utf8Len(message), limit, readFault);
    Respond(window, ks1, key, message, func, now, later, duration, userFault, assistantFault)
  }

  lemma StoreAllTwo(ks: Keyspace, key: string, t1: PendingStore, t2: PendingStore, clock: int64, duration: int)
    ensures StoreAll(ks, key, [t1, t2], clock, duration)
      == StoreEffect(StoreEffect(ks, key, ToJson(Message(t1.role, t1.content)), t1.timestamp.GetOr(clock) as int, duration, t1.fault).1,
                     key, ToJson(Message(t2.role, t2.content)), t2.timestamp.GetOr(clock) as int, duration, t2.fault).1
    ensures Attempted([t1, t2]) == [Message(t1.role, t1.content), Message(t2.role, t2.content)]
  {
    assert [t1, t2][..1] == [t1] && [t1][..0] == [];
    assert StoreAll(ks, key, [t1], clock, duration)
      == StoreEffect(ks, key, ToJson(Message(t1.role, t1.content)), t1.timestamp.GetOr(clock) as int, duration, t1.fault).1;
    assert Attempted([t1]) == [Message(t1.role, t1.content)];
  }

  /** Every store the pipeline attempts keeps the histories well-formed, whatever its fault. */
  lemma {:induction false} StoreAllKeepsValid(ks: Keyspace, key: string, turns: seq<PendingStore>, clock: int64, duration: int)
    requires HistoryValid(ks)
    ensures HistoryValid(StoreAll(ks, key, turns, clock, duration))
    decreases |turns|
  {
    if turns != [] {
      var t := turns[|turns| - 1];
      StoreAllKeepsValid(ks, key, turns[..|turns| - 1], clock, duration);
      StoreKeepsValid(StoreAll(ks, key, turns[..|turns| - 1], clock, duration), key, Message(t.role, t.content),
                      t.timestamp.GetOr(clock) as int, duration, t.fault);
    }
  }

  /** `process_message` leaves every history well-formed, so it can run again. */
  lemma PipelineKeepsValid(ks: Keyspace, key: string, message: string, func: seq<Message> -> Result<Option<string>, string>,
                           now: int64, later: int64, duration: int, limit: nat,
                           readFault: Fault, userFault: Fault, assistantFault: Fault)
    requires HistoryValid(ks)
    ensures HistoryValid(Pipeline(ks, key, message, func, now, later, duration, limit, readFault, userFault, assistantFault).space)
  {
    ReadKeepsValid(ks, key, Utf8Len(message), limit, readFault);
    var (window, ks1) := ReadWindow(ks, key, Utf8Len(message), limit, readFault);
    var history := (if window.Ok? then window.value else []) + [Message("user", message)];
    var answer := func(history);
    if answer.Ok? && answer.value.Some? {
      StoreAllKeepsValid(ks1, key, [PendingStore("user", message, Some(now), userFault),
                                   PendingStore("assistant", answer.value.value, None, assistantFault)], later, duration);
    }
  }

  /**
    The reply is the answering function's reply on the history it was given:
    the window read, or nothing when the read failed, followed by the new
    message. Both turns are stored exactly when that reply carries an answer.
  */
  lemma RespondReply(window: Result<seq<Message>, StoreError>, ks: Keyspace, key: string, message: string,
                     func: seq<Message> -> Result<Option<string>, string>, now: int64, later: int64, duration: int,
                     userFault: Fault, assistantFault: Fault)
    ensures var o := Respond(window, ks, key, message, func, now, later, duration, userFault, assistantFault);
      && o.reply == func(o.history)
      && o.history == (if window.Ok? then window.value else []) + [Message("user", message)]
      && (o.reply.Ok? && o.reply.value.Some? <==> o.attempts != [])
      && (o.attempts != [] ==> o.attempts == [Message("user", message), Message("assistant", o.reply.value.value)])
      && (o.attempts == [] ==> o.space == ks)
  {
    var o := Respond(window, ks, key, message, func, now, later, duration, userFault, assistantFault);
    if o.reply.Ok? && o.reply.value.Some? {
      StoreAllTwo(ks, key, PendingStore("user", message, Some(now), userFault),
                  PendingStore("assistant", o.reply.value.value, None, assistantFault), later, duration);
    }
  }

  /** Failing stores never change the reply: it is the same as with stores that succeed. */
  lemma RespondIgnoresStoreFaults(window: Result<seq<Message>, StoreError>, ks: Keyspace, key: string, message: string,
                                  func: seq<Message> -> Result<Option<string>, string>, now: int64, later: int64, duration: int,
                                  userFault: Fault, assistantFault: Fault)
    ensures Respond(window, ks, key, message, func, now, later, duration, userFault, assistantFault).reply
      == Respond(window, ks, key, message, func, now, later, duration, None, None).reply
  {
  }

  /**
    Without faults and with a positive cache duration, after an answer the
    history holds the user's turn scored `now` and the assistant's turn
    scored `later`.
  */
  lemma RespondStoresBoth(window: Result<seq<Message>, StoreError>, ks: Keyspace, key: string, message: string,
                          func: seq<Message> -> Result<Option<string>, string>, now: int64, later: int64, duration: int)
    requires HistoryValid(ks) && duration > 0
    ensures var o := Respond(window, ks, key, message, func, now, later, duration, None, None);
      o.reply.Ok? && o.reply.value.Some? ==>
        && Entry(ToJson(Message("user", message)), now as int) in Get(o.space, key)
        && Entry(ToJson(Message("assistant", o.reply.value.value)), later as int) in Get(o.space, key)
  {
    var o := Respond(window, ks, key, message, func, now, later, duration, None, None);
    if o.reply.Ok? && o.reply.value.Some? {
      var u := Message("user", message);
      var a := Message("assistant", o.reply.value.value);
      assert u.role[0] != a.role[0];
      StoreAllTwo(ks, key, PendingStore("user", message, Some(now), None), PendingStore("assistant", a.content, None, None), later, duration);
      StoreTwo(ks, key, u, a, now as int, later as int, duration);
    }
  }

  /** Two stores of different messages without faults leave both in the set. */
  lemma StoreTwo(ks: Keyspace, key: string, u: Message, a: Message, s1: int, s2: int, duration: int)
    requires HistoryValid(ks) && duration > 0 && u != a
    ensures var ks2 := StoreEffect(StoreEffect(ks, key, ToJson(u), s1, duration, None).1, key, ToJson(a), s2, duration, None).1;
      Entry(ToJson(u), s1) in Get(ks2, key) && Entry(ToJson(a), s2) in Get(ks2, key)
  {
    var ks1 := StoreEffect(ks, key, ToJson(u), s1, duration, None).1;
    StoreSpec(ks, key, ToJson(u), s1, duration);
    StoreKeepsValid(ks, key, u, s1, duration, None);
    StoreSpec(ks1, key, ToJson(a), s2, duration);
    if ToJson(u) == ToJson(a) {
      ToJsonInjective(u, a);
    }
  }

  /** Without a read fault, the turns passed on before the new message fit the budget together with it. */
  lemma PipelineHistoryBudget(ks: Keyspace, key: string, message: string, func: seq<Message> -> Result<Option<string>, string>,
                              now: int64, later: int64, duration: int, limit: nat, userFault: Fault, assistantFault: Fault)
    requires HistoryValid(ks)
    ensures var o := Pipeline(ks, key, message, func, now, later, duration, limit, None, userFault, assistantFault);
      var past := o.history[..|o.history| - 1];
      past == [] || Utf8Len(message) + JsonLen(past) <= limit
  {
    var (window, ks1) := ReadWindow(ks, key, Utf8Len(message), limit, None);
    ReadReturnsKept(ks, key, Utf8Len(message), limit);
    var o := Respond(window, ks1, key, message, func, now, later, duration, userFault, assistantFault);
    assert o.history[..|o.history| - 1] == window.value;
  }

  /** When the history cannot be read, only the new message is passed on. */
  lemma PipelineReadFailure(ks: Keyspace, key: string, message: string, func: seq<Message> -> Result<Option<string>, string>,
                            now: int64, later: int64, duration: int, limit: nat, userFault: Fault, assistantFault: Fault)
    requires HistoryValid(ks)
    ensures Pipeline(ks, key, message, func, now, later, duration, limit, Some(0), userFault, assistantFault).history
      == [Message("user", message)]
  {
  }

  // ---------------------------------------------------------------------------
  // The manager
  // ---------------------------------------------------------------------------

  /** The history store of the bot: a Redis client, the key prefix, the TTL and the budget. */
  class ConversationManager {
    const client: RedisStore
    const prefix: string
    var cacheDuration: int64
    var charLimit: nat

    /** `ConversationManager::default()`. */
    constructor Default(client: RedisStore)
      ensures this.client == client && prefix == HISTORY_PREFIX
      ensures cacheDuration == DEFAULT_CACHE_DURATION && charLimit == DEFAULT_CHAR_LIMIT
    {
      this.client := client;
      prefix := HISTORY_PREFIX;
      cacheDuration := DEFAULT_CACHE_DURATION;
      charLimit := DEFAULT_CHAR_LIMIT;
    }

    /** `with_cache_duration`: only the TTL changes. */
    method WithCacheDuration(value: int64)
      modifies this
      ensures cacheDuration == value && charLimit == old(charLimit)
    {
      cacheDuration := value;
    }

    /** `with_char_limit`: only the budget changes. */
    method WithCharLimit(value: nat)
      modifies this
      ensures charLimit == value && cacheDuration == old(cacheDuration)
    {
      charLimit := value;
    }

    function Key(userId: string): string
    {
      HistoryKey(prefix, userId)
    }

    /**
      `store_message`: `clock` is the millisecond time used when no
      timestamp is given.
    */
    method StoreMessage(userId: string, role: string, content: string, timestamp: Option<int64>, clock: int64, fault: Fault)
      returns (r: Result<(), StoreError>)
      modifies client
      ensures (r, client.Space()) == StoreEffect(old(client.Space()), Key(userId), ToJson(Message(role, content)),
                                                 timestamp.GetOr(clock) as int, cacheDuration as int, fault)
    {
      var f := fault;
      if Fails(f) {
        return Err(StoreError);
      }
      f := Next(f);
      var key := Key(userId);
      var ts := timestamp.GetOr(clock);
      var messageJson := ToJson(Message(role, content));
      if Fails(f) {
        return Err(StoreError);
      }
      f := Next(f);
      client.ZAdd(key, messageJson, ts as int);
      if Fails(f) {
        return Err(StoreError);
      }
      client.Expire(key, cacheDuration as int);
      return Ok(());
    }

    /** `get_conversation`: the history of `userId` trimmed to the budget, oldest first. */
    method GetConversation(userId: string, currentMessageLength: nat, fault: Fault)
      returns (r: Result<seq<Message>, StoreError>)
      requires HistoryValid(client.Space())
      modifies client
      ensures (r, client.Space()) == ReadWindow(old(client.Space()), Key(userId), currentMessageLength, charLimit, fault)
      ensures HistoryValid(client.Space())
    {
      ReadKeepsValid(client.Space(), Key(userId), currentMessageLength, charLimit, fault);
      if Fails(fault) {
        return Err(StoreError);
      }
      var key := Key(userId);
      ghost var ks0 := client.Space();
      PutGet(ks0, key);
      assert AllCanonical(Get(ks0, key));
      r := TrimLoop(key, currentMessageLength, charLimit, Next(fault), Get(ks0, key));
    }

    /**
      The loop of `get_conversation` over the set `z0` stored under `key`:
      it reads one entry per ZREVRANGE, from the newest down, and keeps it or
      deletes it with ZREM; the cursor advances in both cases.
    */
    method TrimLoop(key: string, currentMessageLength: nat, limit: nat, fault: Fault, ghost z0: seq<Entry>)
      returns (r: Result<seq<Message>, StoreError>)
      requires Get(client.Space(), key) == z0 && Put(client.Space(), key, z0) == client.Space() && AllCanonical(z0)
      modifies client
      ensures var s := Scan(z0, 0, currentMessageLength, limit, fault);
        && AllCanonical(s.kept)
        && r == (if s.ok then Ok(Reverse(Decoded(s.kept))) else Err(StoreError))
        && client.Space() == Put(old(client.Space()), key, s.zset)
    {
      var f := fault;
      var totalLength: nat := currentMessageLength;
      var trimmed: seq<Message> := [];
      ghost var ks0 := client.Space();
      ghost var s0 := Scan(z0, 0, currentMessageLength, limit, f);
      ReadStart(s0, z0, currentMessageLength, limit, f);
      ghost var z := z0;
      ghost var kept: seq<Entry> := [];
      var cursor: nat := 0;
      while true
        invariant client.Space() == Put(ks0, key, z)
        invariant ReadState(s0, kept, z, cursor, totalLength, limit, f, trimmed)
        decreases |z|, |z| - cursor
      {
        GetPut(ks0, key, z);
        if Fails(f) {
          ReadEnd(s0, kept, z, cursor, totalLength, limit, f, trimmed);
          return Err(StoreError);
        }
        var batch := client.ZRevRangeAt(key, cursor, z);
        if batch == [] {
          ReadEnd(s0, kept, z, cursor, totalLength, limit, f, trimmed);
          break;
        }
        ghost var e := z[|z| - 1 - cursor];
        var messageJson := batch[0];
        assert messageJson == e.member;
        ReadAt(s0, kept, z, cursor, totalLength, limit, f, trimmed);
        var message := FromJson(messageJson).value;
        var messageLength := Utf8Len(messageJson);
        if totalLength + messageLength <= limit {
          ghost var kept0, total0, trimmed0, f0 := kept, totalLength, trimmed, f;
          totalLength := totalLength + messageLength;
          trimmed := trimmed + [message];
          kept := kept + [e];
          f := Next(f);
          TakeStep(s0, kept0, z, cursor, total0, totalLength, limit, f0, trimmed0);
        } else {
          if Fails(Next(f)) {
            ReadEnd(s0, kept, z, cursor, totalLength, limit, f, trimmed);
            return Err(StoreError);
          }
          ghost var z1, f0 := z, f;
          client.ZRem(key, messageJson);
          PutPut(ks0, key, z, Remove(z, e.member));
          z := Remove(z, e.member);
          f := Next(Next(f));
          EvictStep(s0, kept, z1, cursor, totalLength, limit, f0, trimmed);
        }
        cursor := cursor + 1;
      }
      trimmed := Reverse(trimmed);
      return Ok(trimmed);
    }

    /**
      `process_message`: `now` is the timestamp of the user's turn and
      `later` the clock reading the assistant's store takes. The attempted
      stores are reported as a ghost result.
    */
    method ProcessMessage(senderId: string, message: string, func: seq<Message> -> Result<Option<string>, string>,
                          now: int64, later: int64, readFault: Fault, userFault: Fault, assistantFault: Fault)
      returns (r: Result<Option<string>, string>, ghost attempts: seq<Message>)
      requires HistoryValid(client.Space())
      modifies client
      ensures var o := Pipeline(old(client.Space()), Key(senderId), message, func, now, later,
                                cacheDuration as int, charLimit, readFault, userFault, assistantFault);
        r == o.reply && attempts == o.attempts && client.Space() == o.space
      ensures HistoryValid(client.Space())
    {
      PipelineKeepsValid(client.Space(), Key(senderId), message, func, now, later,
                         cacheDuration as int, charLimit, readFault, userFault, assistantFault);
      var window := GetConversation(senderId, Utf8Len(message), readFault);
      var history := if window.Ok? then window.value else [];
      history := history + [Message("user", message)];
      var timestamp: Option<int64> := Some(now);
      var answer := func(history);
      if !(answer.Ok? && answer.value.Some?) {
        return answer, [];
      }
      var a := answer.value.value;
      var turns := [PendingStore("user", message, timestamp, userFault), PendingStore("assistant", a, None, assistantFault)];
      attempts := StoreTurns(senderId, turns, later);
      return Ok(Some(a)), attempts;
    }

    /** The stores of `process_message`, one per turn; a failed store is logged and the loop goes on. */
    method StoreTurns(senderId: string, turns: seq<PendingStore>, clock: int64) returns (ghost attempts: seq<Message>)
      modifies client
      ensures client.Space() == StoreAll(old(client.Space()), Key(senderId), turns, clock, cacheDuration as int)
      ensures attempts == Attempted(turns)
    {
      ghost var ks0 := client.Space();
      attempts := [];
      for i := 0 to |turns|
        invariant client.Space() == StoreAll(ks0, Key(senderId), turns[..i], clock, cacheDuration as int)
        invariant attempts == Attempted(turns[..i])
      {
        var t := turns[i];
        assert turns[..i + 1][..i] == turns[..i];
        var _ := StoreMessage(senderId, t.role, t.content, t.timestamp, clock, t.fault);
        attempts := attempts + [Message(t.role, t.content)];
      }
      assert turns[..|turns|] == turns;
    }
  }
}
