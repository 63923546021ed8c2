/**
  The pieces of Rust's standard library whose exact behaviour the bot's core
  depends on: fixed-width integers, `str::len` (UTF-8 bytes), `split_whitespace`,
  `replacen(pat, "", 1)`, `str::parse` for signed integers, and the `{}` and
  `{:?}` formatting of integers and string slices.
*/
module RustStd {
  import opened Wrappers

  newtype int32 = x: int | -0x8000_0000 <= x < 0x8000_0000
  newtype int64 = x: int | -0x8000_0000_0000_0000 <= x < 0x8000_0000_0000_0000

  const I32_MIN: int := -0x8000_0000
  const I32_MAX: int := 0x7FFF_FFFF
  const I64_MIN: int := -0x8000_0000_0000_0000
  const I64_MAX: int := 0x7FFF_FFFF_FFFF_FFFF

  // ---------------------------------------------------------------------------
  // `str::len`: the number of bytes of the UTF-8 encoding
  // ---------------------------------------------------------------------------

  function Utf8Width(c: char): nat
  {
    if c as int < 0x80 then 1
    else if c as int < 0x800 then 2
    else if c as int < 0x1_0000 then 3
    else 4
  }

  /** The byte length Rust's `len()` reports: between one and four bytes per character. */
  function Utf8Len(s: string): (n: nat)
    ensures |s| <= n <= 4 * |s|
  {
    if s == [] then 0 else Utf8Width(s[0]) + Utf8Len(s[1..])
  }

  lemma {:induction false} Utf8LenAppend(a: string, b: string)
    ensures Utf8Len(a + b) == Utf8Len(a) + Utf8Len(b)
  {
    if a != [] {
      assert (a + b)[1..] == a[1..] + b;
      Utf8LenAppend(a[1..], b);
    } else {
      assert a + b == b;
    }
  }

  // ---------------------------------------------------------------------------
  // `split_whitespace`: maximal runs of non-White_Space characters
  // ---------------------------------------------------------------------------

  /** The Unicode White_Space property, which `char::is_whitespace` tests. */
  predicate IsWhitespace(c: char)
  {
    || 0x09 <= c as int <= 0x0D
    || c as int == 0x20
    || c as int == 0x85
    || c as int == 0xA0
    || c as int == 0x1680
    || 0x2000 <= c as int <= 0x200A
    || c as int == 0x2028
    || c as int == 0x2029
    || c as int == 0x202F
    || c as int == 0x205F
    || c as int == 0x3000
  }

  predicate NoWhitespace(s: string)
  {
    forall i :: 0 <= i < |s| ==> !IsWhitespace(s[i])
  }

  /** What `split_whitespace` can yield: a non-empty word without white space. */
  predicate IsToken(t: string)
  {
    |t| > 0 && NoWhitespace(t)
  }

  /** The words of `s`, in order; no word is empty or contains white space. */
  function SplitWhitespace(s: string): (tokens: seq<string>)
    ensures forall i :: 0 <= i < |tokens| ==> IsToken(tokens[i])
  {
    SplitFrom(s, [])
  }

  /** Splits `s`, with `word` the part of the current word already read. */
  function SplitFrom(s: string, word: string): (tokens: seq<string>)
    requires NoWhitespace(word)
    ensures forall i :: 0 <= i < |tokens| ==> IsToken(tokens[i])
    decreases |s|
  {
    if s == [] then
      (if word == [] then [] else [word])
    else if IsWhitespace(s[0]) then
      (if word == [] then SplitFrom(s[1..], []) else [word] + SplitFrom(s[1..], []))
    else
      SplitFrom(s[1..], word + [s[0]])
  }

  /** The tokens separated by single spaces. */
  function JoinSpaces(tokens: seq<string>): string
  {
    if |tokens| == 0 then ""
    else if |tokens| == 1 then tokens[0]
    else tokens[0] + " " + JoinSpaces(tokens[1..])
  }

  lemma {:induction false} SplitFromWord(w: string, rest: string, word: string)
    requires NoWhitespace(w) && NoWhitespace(word)
    ensures SplitFrom(w + rest, word) == SplitFrom(rest, word + w)
    decreases |w|
  {
    if w != [] {
      assert (w + rest)[0] == w[0];
      assert (w + rest)[1..] == w[1..] + rest;
      assert word + w == (word + [w[0]]) + w[1..];
      SplitFromWord(w[1..], rest, word + [w[0]]);
    } else {
      assert w + rest == rest && word + w == word;
    }
  }

  /** `split_whitespace` undoes joining words with single spaces. */
  lemma {:induction false} SplitJoin(tokens: seq<string>)
    requires forall i :: 0 <= i < |tokens| ==> IsToken(tokens[i])
    ensures SplitWhitespace(JoinSpaces(tokens)) == tokens
  {
    if |tokens| == 1 {
      SplitFromWord(tokens[0], [], []);
      assert tokens[0] + [] == tokens[0];
      assert [] + tokens[0] == tokens[0];
    } else if |tokens| > 1 {
      var t, rest := tokens[0], JoinSpaces(tokens[1..]);
      assert JoinSpaces(tokens) == t + (" " + rest);
      SplitFromWord(t, " " + rest, []);
      assert [] + t == t;
      assert (" " + rest)[1..] == rest;
      SplitJoin(tokens[1..]);
      assert [tokens[0]] + tokens[1..] == tokens;
    }
  }

  /** A single word splits into itself. */
  lemma SplitOneWord(w: string)
    requires IsToken(w)
    ensures SplitWhitespace(w) == [w]
  {
    SplitFromWord(w, [], []);
    assert w + [] == w && [] + w == w;
  }

  /** A word followed by a space is the first of the words. */
  lemma SplitLeadingWord(w: string, rest: string)
    requires IsToken(w)
    ensures SplitWhitespace(w + " " + rest) == [w] + SplitWhitespace(rest)
  {
    assert w + " " + rest == w + (" " + rest);
    SplitFromWord(w, " " + rest, []);
    assert [] + w == w;
    assert (" " + rest)[1..] == rest;
  }

  // ---------------------------------------------------------------------------
  // `replacen(pat, "", 1)`: drop the first occurrence of a pattern
  // ---------------------------------------------------------------------------

  predicate OccursAt(s: string, pat: string, i: nat)
  {
    i + |pat| <= |s| && s[i..i + |pat|] == pat
  }

  /** The first position at or after `from` where `pat` occurs. */
  function FindFrom(s: string, pat: string, from: nat): (r: Option<nat>)
    ensures r.Some? ==> from <= r.value && OccursAt(s, pat, r.value)
    ensures r.Some? ==> forall j :: from <= j < r.value ==> !OccursAt(s, pat, j)
    ensures r.None? ==> forall j :: from <= j ==> !OccursAt(s, pat, j)
    decreases |s| - from
  {
    if from + |pat| > |s| then None
    else if s[from..from + |pat|] == pat then Some(from)
    else FindFrom(s, pat, from + 1)
  }

  /** `s.replacen(pat, "", 1)`: `s` without the leftmost occurrence of `pat`, or `s` itself. */
  function RemoveFirst(s: string, pat: string): (r: string)
    ensures (exists j :: OccursAt(s, pat, j)) ==> |r| + |pat| == |s|
    ensures (forall j :: !OccursAt(s, pat, j)) ==> r == s
  {
    match FindFrom(s, pat, 0)
    case None => s
    case Some(i) => s[..i] + s[i + |pat|..]
  }

  /** When `s` starts with `pat`, the first occurrence is that prefix. */
  lemma RemoveFirstPrefix(pat: string, rest: string)
    ensures RemoveFirst(pat + rest, pat) == rest
  {
    var s := pat + rest;
    assert s[0..|pat|] == pat;
    assert s[|pat|..] == rest;
  }

  // ---------------------------------------------------------------------------
  // `str::parse::<i32>()` / `str::parse::<i64>()`
  // ---------------------------------------------------------------------------

  predicate IsDigit(c: char)
  {
    '0' <= c <= '9'
  }

  predicate AllDigits(s: string)
  {
    forall i :: 0 <= i < |s| ==> IsDigit(s[i])
  }

  function DigitsValue(d: string): nat
    requires AllDigits(d)
  {
    if d == [] then 0 else DigitsValue(d[..|d| - 1]) * 10 + (d[|d| - 1] as int - '0' as int)
  }

  /** The text of an integer: an optional `+` or `-`, then at least one ASCII digit and nothing else. */
  predicate IntText(s: string)
  {
    && |s| > 0
    && (IsDigit(s[0]) || ((s[0] == '+' || s[0] == '-') && |s| >= 2))
    && forall i :: 0 < i < |s| ==> IsDigit(s[i])
  }

  /** The value written by an integer text: its digits read in base ten, negated after a `-`. */
  function IntTextValue(s: string): int
    requires IntText(s)
  {
    var magnitude := if IsDigit(s[0]) then DigitsValue([s[0]]) * Pow10(|s| - 1) + DigitsValue(s[1..]) else DigitsValue(s[1..]);
    if s[0] == '-' then -magnitude else magnitude
  }

  function Pow10(n: nat): nat
  {
    if n == 0 then 1 else 10 * Pow10(n - 1)
  }

  /** Reading digits from the left: the leading digit counts `10^(n-1)` times. */
  lemma {:induction false} DigitsValueHead(d: string)
    requires |d| > 0 && AllDigits(d)
    ensures DigitsValue(d) == DigitsValue([d[0]]) * Pow10(|d| - 1) + DigitsValue(d[1..])
    decreases |d|
  {
    if |d| == 1 {
      assert d == [d[0]] && d[1..] == [];
    } else {
      var init := d[..|d| - 1];
      DigitsValueHead(init);
      assert init[0] == d[0];
      assert init[1..] == d[1..][..|d| - 2];
      ShiftDigit(DigitsValue([d[0]]), Pow10(|d| - 2), DigitsValue(init[1..]), d[|d| - 1] as int - '0' as int);
    }
  }

  lemma ShiftDigit(h: int, p: int, x: int, last: int)
    ensures (h * p + x) * 10 + last == h * (10 * p) + (x * 10 + last)
  {
  }

  /**
    Rust's parse for a signed integer type with range `lo..=hi`: an optional
    `+` or `-`, then at least one ASCII digit and nothing else, and a value
    that fits; anything else is an error (`None`).
  */
  function ParseInt(s: string, lo: int, hi: int): (r: Option<int>)
    ensures r.Some? ==> lo <= r.value <= hi
    ensures r.Some? <==> IntText(s) && lo <= IntTextValue(s) <= hi
    ensures r.Some? ==> r.value == IntTextValue(s)
  {
    if s == [] then None
    else if (s[0] == '+' || s[0] == '-') && |s| == 1 then None
    else
      var signed := s[0] == '+' || s[0] == '-';
      var digits := if signed then s[1..] else s;
      if !AllDigits(digits) then None
      else
        DigitsValueHead(digits);
        var n: int := DigitsValue(digits);
        var v := if s[0] == '-' then -n else n;
        if lo <= v <= hi then Some(v) else None
  }

  // ---------------------------------------------------------------------------
  // `{}` of an integer and `{:?}` of a string slice
  // ---------------------------------------------------------------------------

  function DigitChar(n: nat): char
    requires n < 10
  {
    (n + '0' as int) as char
  }

  function NatDigits(n: nat): (d: string)
    ensures |d| > 0 && AllDigits(d)
  {
    if n < 10 then [DigitChar(n)] else NatDigits(n / 10) + [DigitChar(n % 10)]
  }

  /** The decimal text `{}` prints for an integer. */
  function Decimal(v: int): (d: string)
    ensures IntText(d) && (d[0] == '-' <==> v < 0)
  {
    if v < 0 then "-" + NatDigits(-v) else NatDigits(v)
  }

  lemma {:induction false} NatDigitsValue(n: nat)
    ensures DigitsValue(NatDigits(n)) == n
  {
    if n >= 10 {
      var d := NatDigits(n);
      assert d[..|d| - 1] == NatDigits(n / 10);
      NatDigitsValue(n / 10);
    }
  }

  /** Parsing the decimal text of an in-range value gives the value back. */
  lemma ParseDecimal(v: int, lo: int, hi: int)
    requires lo <= v <= hi
    ensures ParseInt(Decimal(v), lo, hi) == Some(v)
  {
    var s := Decimal(v);
    if v < 0 {
      var d := NatDigits(-v);
      NatDigitsValue(-v);
      assert s == "-" + d;
      assert s[0] == '-' && |s| > 1;
      assert s[1..] == d;
    } else {
      var d := NatDigits(v);
      NatDigitsValue(v);
      assert s == d;
      assert IsDigit(d[0]);
    }
  }

  /** The decimal text of an integer is a single word. */
  lemma DecimalIsToken(v: int)
    ensures IsToken(Decimal(v))
  {
    var d := NatDigits(if v < 0 then -v else v);
    assert forall i :: 0 <= i < |d| ==> !IsWhitespace(d[i]);
    if v < 0 {
      assert Decimal(v) == "-" + d;
      assert forall i :: 1 <= i < |Decimal(v)| ==> Decimal(v)[i] == d[i - 1];
    }
  }

  /** The escape `{:?}` writes for one character (printable characters stand for themselves). */
  function EscapeDebugChar(c: char): string
  {
    if c == '\0' then "\\0"
    else if c == '\t' then "\\t"
    else if c == '\r' then "\\r"
    else if c == '\n' then "\\n"
    else if c == '\\' then "\\\\"
    else if c == '"' then "\\\""
    else [c]
  }

  function EscapeDebug(s: string): (r: string)
    ensures |s| <= |r| <= 2 * |s|
  {
    if s == [] then "" else EscapeDebugChar(s[0]) + EscapeDebug(s[1..])
  }

  /** `format!("{:?}", s)` for a string slice: quoted and escaped. */
  function DebugStr(s: string): (r: string)
    ensures |s| + 2 <= |r| <= 2 * |s| + 2 && r[0] == '"' && r[|r| - 1] == '"'
  {
    "\"" + EscapeDebug(s) + "\""
  }
}
