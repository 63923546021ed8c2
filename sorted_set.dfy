/**
  The value of one Redis sorted set: its entries in Redis' rank order,
  ascending by score and, for equal scores, by member bytes. Comparing
  members character by character gives the same order as comparing their
  UTF-8 bytes, since UTF-8 preserves code point order.
*/
module SortedSet {

  /** One member of a sorted set with its score (a millisecond timestamp here). */
  datatype Entry = Entry(member: string, score: int)

  // ---------------------------------------------------------------------------
  // Rank order
  // ---------------------------------------------------------------------------

  /** Lexicographic order on strings; a proper prefix comes first. */
  predicate StrLess(a: string, b: string)
    decreases |a|
  {
    |b| > 0 && (|a| == 0 || a[0] < b[0] || (a[0] == b[0] && StrLess(a[1..], b[1..])))
  }

  lemma {:induction false} StrLessIrreflexive(a: string)
    ensures !StrLess(a, a)
    decreases |a|
  {
    if |a| > 0 {
      StrLessIrreflexive(a[1..]);
    }
  }

  lemma {:induction false} StrLessTransitive(a: string, b: string, c: string)
    requires StrLess(a, b) && StrLess(b, c)
    ensures StrLess(a, c)
    decreases |a|
  {
    if |a| > 0 && a[0] == b[0] && b[0] == c[0] {
      StrLessTransitive(a[1..], b[1..], c[1..]);
    }
  }

  lemma {:induction false} StrLessTotal(a: string, b: string)
    requires a != b
    ensures StrLess(a, b) || StrLess(b, a)
    decreases |a|
  {
    if |a| > 0 && |b| > 0 && a[0] == b[0] {
      assert a == [a[0]] + a[1..] && b == [b[0]] + b[1..];
      StrLessTotal(a[1..], b[1..]);
    }
  }

  /** `x` ranks strictly below `y`. */
  predicate Below(x: Entry, y: Entry)
  {
    x.score < y.score || (x.score == y.score && StrLess(x.member, y.member))
  }

  lemma BelowTransitive(x: Entry, y: Entry, z: Entry)
    requires Below(x, y) && Below(y, z)
    ensures Below(x, z)
  {
    if x.score == y.score == z.score {
      StrLessTransitive(x.member, y.member, z.member);
    }
  }

  lemma BelowIrreflexive(x: Entry)
    ensures !Below(x, x)
  {
    StrLessIrreflexive(x.member);
  }

  lemma BelowTotal(x: Entry, y: Entry)
    requires x.member != y.member
    ensures Below(x, y) || Below(y, x)
  {
    StrLessTotal(x.member, y.member);
  }

  // ---------------------------------------------------------------------------
  // Well-formed sorted sets
  // ---------------------------------------------------------------------------

  predicate Ordered(z: seq<Entry>)
  {
    forall i, j :: 0 <= i < j < |z| ==> Below(z[i], z[j])
  }

  predicate Distinct(z: seq<Entry>)
  {
    forall i, j :: 0 <= i < j < |z| ==> z[i].member != z[j].member
  }

  /** Every member at most once, entries in rank order. */
  predicate IsZSet(z: seq<Entry>)
  {
    Ordered(z) && Distinct(z)
  }

  predicate HasMember(z: seq<Entry>, m: string)
  {
    exists x :: x in z && x.member == m
  }

  lemma OrderedCons(x: Entry, z: seq<Entry>)
    requires Ordered(z)
    requires forall y :: y in z ==> Below(x, y)
    ensures Ordered([x] + z)
  {
    var r := [x] + z;
    forall i, j | 0 <= i < j < |r| ensures Below(r[i], r[j]) {
      if i > 0 {
        assert r[i] == z[i - 1] && r[j] == z[j - 1];
      } else {
        assert r[j] in z;
      }
    }
  }

  lemma DistinctCons(x: Entry, z: seq<Entry>)
    requires Distinct(z)
    requires !HasMember(z, x.member)
    ensures Distinct([x] + z)
  {
    var r := [x] + z;
    forall i, j | 0 <= i < j < |r| ensures r[i].member != r[j].member {
      if i > 0 {
        assert r[i] == z[i - 1] && r[j] == z[j - 1];
      } else {
        assert r[j] in z;
      }
    }
  }

  lemma HeadBelowTail(z: seq<Entry>)
    requires |z| > 0 && Ordered(z)
    ensures forall y :: y in z[1..] ==> Below(z[0], y)
  {
    forall y | y in z[1..] ensures Below(z[0], y) {
      var j :| 0 <= j < |z[1..]| && z[1..][j] == y;
      assert z[j + 1] == y;
    }
  }

  lemma HeadNotInTail(z: seq<Entry>)
    requires |z| > 0 && Distinct(z)
    ensures !HasMember(z[1..], z[0].member)
  {
    forall y | y in z[1..] ensures y.member != z[0].member {
      var j :| 0 <= j < |z[1..]| && z[1..][j] == y;
      assert z[j + 1] == y;
    }
  }

  // ---------------------------------------------------------------------------
  // ZREM and ZADD on one set
  // ---------------------------------------------------------------------------

  /** The set without member `m` (ZREM). */
  function Remove(z: seq<Entry>, m: string): (r: seq<Entry>)
    ensures forall x :: x in r <==> x in z && x.member != m
    ensures |r| <= |z|
    ensures HasMember(z, m) ==> |r| < |z|
  {
    if z == [] then []
    else if z[0].member == m then Remove(z[1..], m)
    else [z[0]] + Remove(z[1..], m)
  }

  lemma {:induction false} RemoveZSet(z: seq<Entry>, m: string)
    requires IsZSet(z)
    ensures IsZSet(Remove(z, m))
  {
    if z != [] {
      RemoveZSet(z[1..], m);
      if z[0].member != m {
        HeadBelowTail(z);
        HeadNotInTail(z);
        OrderedCons(z[0], Remove(z[1..], m));
        DistinctCons(z[0], Remove(z[1..], m));
      }
    }
  }

  lemma {:induction false} RemoveAbsent(z: seq<Entry>, m: string)
    requires !HasMember(z, m)
    ensures Remove(z, m) == z
  {
    if z != [] {
      assert z[0] in z;
      assert forall x :: x in z[1..] ==> x in z;
      RemoveAbsent(z[1..], m);
      assert [z[0]] + z[1..] == z;
    }
  }

  /** Removing the member found at index `k` closes the gap at `k`. */
  lemma {:induction false} RemoveAt(z: seq<Entry>, k: nat)
    requires Distinct(z) && k < |z|
    ensures Remove(z, z[k].member) == z[..k] + z[k + 1..]
  {
    if k == 0 {
      HeadNotInTail(z);
      RemoveAbsent(z[1..], z[0].member);
    } else {
      var t := z[1..];
      assert t[k - 1] == z[k] && z[0].member != z[k].member;
      DistinctTail(z);
      RemoveAt(t, k - 1);
      assert z[..k] + z[k + 1..] == [z[0]] + (t[..k - 1] + t[k..]);
    }
  }

  lemma DistinctTail(z: seq<Entry>)
    requires Distinct(z) && z != []
    ensures Distinct(z[1..])
  {
    forall i, j | 0 <= i < j < |z| - 1 ensures z[1..][i].member != z[1..][j].member {
      assert z[1..][i] == z[i + 1] && z[1..][j] == z[j + 1];
    }
  }

  /** Without its newest entry a set stays distinct, and no earlier entry shares that entry's member. */
  lemma DistinctInit(z: seq<Entry>)
    requires Distinct(z) && z != []
    ensures Distinct(z[..|z| - 1])
    ensures forall x :: x in z[..|z| - 1] ==> x.member != z[|z| - 1].member
  {
    var init := z[..|z| - 1];
    forall x | x in init ensures x.member != z[|z| - 1].member {
      var i :| 0 <= i < |init| && init[i] == x;
      assert z[i] == x;
    }
  }

  lemma DistinctRemoveAt(z: seq<Entry>, k: nat)
    requires Distinct(z) && k < |z|
    ensures Distinct(z[..k] + z[k + 1..])
  {
    var r := z[..k] + z[k + 1..];
    forall i, j | 0 <= i < j < |r| ensures r[i].member != r[j].member {
      var i' := if i < k then i else i + 1;
      var j' := if j < k then j else j + 1;
      assert r[i] == z[i'] && r[j] == z[j'];
    }
  }

  /** Inserts an entry at its rank. */
  function Insert(z: seq<Entry>, e: Entry): (r: seq<Entry>)
    ensures multiset(r) == multiset(z) + multiset{e}
  {
    if z == [] then [e]
    else if Below(e, z[0]) then [e] + z
    else
      assert z == [z[0]] + z[1..];
      [z[0]] + Insert(z[1..], e)
  }

  lemma {:induction false} InsertZSet(z: seq<Entry>, e: Entry)
    requires IsZSet(z) && !HasMember(z, e.member)
    ensures IsZSet(Insert(z, e))
  {
    if z == [] {
    } else if Below(e, z[0]) {
      HeadBelowTail(z);
      forall y | y in z ensures Below(e, y) {
        if y != z[0] {
          assert y in z[1..] by { assert z == [z[0]] + z[1..]; }
          BelowTransitive(e, z[0], y);
        }
      }
      OrderedCons(e, z);
      DistinctCons(e, z);
    } else {
      assert z[0] in z;
      BelowTotal(e, z[0]);
      HeadBelowTail(z);
      HeadNotInTail(z);
      assert forall x :: x in z[1..] ==> x in z;
      InsertZSet(z[1..], e);
      var r := Insert(z[1..], e);
      assert forall y :: y in r ==> y in z[1..] || y == e by {
        forall y | y in r ensures y in z[1..] || y == e {
          assert y in multiset(r);
        }
      }
      OrderedCons(z[0], r);
      assert !HasMember(r, z[0].member);
      DistinctCons(z[0], r);
    }
  }

  /** ZADD: `m` scored `score`, replacing any earlier score of `m`. */
  function Add(z: seq<Entry>, m: string, score: int): seq<Entry>
  {
    Insert(Remove(z, m), Entry(m, score))
  }

  /**
    ZADD keeps a well-formed set, holds `m` exactly once with the new score,
    and leaves every other member with its score.
  */
  lemma AddSpec(z: seq<Entry>, m: string, score: int)
    requires IsZSet(z)
    ensures IsZSet(Add(z, m, score))
    ensures forall x :: x in Add(z, m, score) <==> x == Entry(m, score) || (x in z && x.member != m)
  {
    RemoveZSet(z, m);
    InsertZSet(Remove(z, m), Entry(m, score));
    var r := Add(z, m, score);
    forall x ensures x in r <==> x == Entry(m, score) || (x in z && x.member != m) {
      assert x in r <==> x in multiset(r);
    }
  }

  /** An entry scored above every other entry of a set is its highest-ranked one. */
  lemma TopRanked(z: seq<Entry>, e: Entry)
    requires Ordered(z) && e in z
    requires forall x :: x in z && x != e ==> x.score < e.score
    ensures z[|z| - 1] == e
  {
    var i :| 0 <= i < |z| && z[i] == e;
    if i < |z| - 1 {
      assert Below(z[i], z[|z| - 1]);
    }
  }

  /** ZREVRANGE key rank rank: the member at `rank` counting from the highest. */
  function RevAt(z: seq<Entry>, rank: nat): (batch: seq<string>)
  {
    if rank < |z| then [z[|z| - 1 - rank].member] else []
  }
}
