/** Shared vocabulary for the scrapers, report writers and mailers: an Option
    type, the Python string operations they rely on (strip, lower, substring
    test, join, replace, prefix slicing, decimal rendering) and order-preserving
    filtering of sequences. */
module Base {

  datatype Option<T> = None | Some(value: T)

  // ---------------------------------------------------------------------------
  // Whitespace and str.strip()
  // ---------------------------------------------------------------------------

  /** Python's str.isspace() for a single character. */
  predicate IsSpace(c: char) {
    var n := c as int;
    (9 <= n <= 13) || (28 <= n <= 32) || n == 0x85 || n == 0xA0 || n == 0x1680
    || (0x2000 <= n <= 0x200A) || n == 0x2028 || n == 0x2029 || n == 0x202F
    || n == 0x205F || n == 0x3000
  }

  predicate AllSpace(s: string) {
    forall i :: 0 <= i < |s| ==> IsSpace(s[i])
  }

  /** str.lstrip(): drops the leading whitespace, keeps the rest. */
  function StripLeft(s: string): (r: string)
    ensures |r| <= |s| && r == s[|s| - |r|..]
    ensures AllSpace(s[..|s| - |r|])
    ensures r != [] ==> !IsSpace(r[0])
  {
    if s != [] && IsSpace(s[0]) then
      var r := StripLeft(s[1..]);
      assert s[..|s| - |r|] == [s[0]] + s[1..][..|s[1..]| - |r|];
      r
    else s
  }

  /** str.rstrip(): drops the trailing whitespace, keeps the rest. */
  function StripRight(s: string): (r: string)
    ensures |r| <= |s| && r == s[..|r|]
    ensures AllSpace(s[|r|..])
    ensures r != [] ==> !IsSpace(r[|r| - 1])
  {
    if s != [] && IsSpace(s[|s| - 1]) then
      var r := StripRight(s[..|s| - 1]);
      assert s[|r|..] == s[..|s| - 1][|r|..] + [s[|s| - 1]];
      r
    else s
  }

  /** str.strip(): the result is empty exactly when the input is all
      whitespace, and otherwise neither starts nor ends with whitespace. */
  function Strip(s: string): (r: string)
    ensures |r| <= |s|
    ensures r == [] <==> AllSpace(s)
    ensures r != [] ==> !IsSpace(r[0]) && !IsSpace(r[|r| - 1])
  {
    var l := StripLeft(s);
    var r := StripRight(l);
    StripParts(s, l, r);
    r
  }

  lemma AllSpaceConcat(a: string, b: string)
    requires AllSpace(a) && AllSpace(b)
    ensures AllSpace(a + b)
  {
    forall i | |a| <= i < |a + b| ensures IsSpace((a + b)[i]) {
      assert (a + b)[i] == b[i - |a|];
    }
  }

  /** The two halves of Strip put together. */
  lemma StripParts(s: string, l: string, r: string)
    requires |l| <= |s| && l == s[|s| - |l|..] && AllSpace(s[..|s| - |l|]) && (l != [] ==> !IsSpace(l[0]))
    requires |r| <= |l| && r == l[..|r|] && AllSpace(l[|r|..]) && (r != [] ==> !IsSpace(r[|r| - 1]))
    ensures r == [] <==> AllSpace(s)
    ensures r != [] ==> !IsSpace(r[0]) && !IsSpace(r[|r| - 1])
  {
    if r == [] {
      assert l[|r|..] == l;
      assert s == s[..|s| - |l|] + l;
      AllSpaceConcat(s[..|s| - |l|], l);
    }
    if l != [] {
      assert l[0] == s[|s| - |l|];
    }
    if r != [] {
      assert r[0] == l[0];
    }
  }

  // ---------------------------------------------------------------------------
  // Case: str.lower() and str.isupper() on ASCII letters
  // ---------------------------------------------------------------------------

  function LowerChar(c: char): char {
    if 'A' <= c <= 'Z' then (c as int + 32) as char else c
  }

  /** str.lower(): ASCII capitals become small letters, every other character is kept. */
  function Lower(s: string): (r: string)
    ensures |r| == |s|
    ensures forall i :: 0 <= i < |s| ==> r[i] == LowerChar(s[i])
  {
    seq(|s|, i requires 0 <= i < |s| => LowerChar(s[i]))
  }

  /** str.isupper(): at least one cased character and no small letter. */
  predicate IsUpper(s: string) {
    (exists i :: 0 <= i < |s| && 'A' <= s[i] <= 'Z')
    && (forall i :: 0 <= i < |s| ==> !('a' <= s[i] <= 'z'))
  }

  // ---------------------------------------------------------------------------
  // Substrings: the `in` operator on strings
  // ---------------------------------------------------------------------------

  lemma SliceOfTail(s: string, a: int, b: int)
    requires 1 <= a <= b <= |s|
    ensures s[1..][a - 1..b - 1] == s[a..b]
  {
    forall k | 0 <= k < b - a ensures s[1..][a - 1..b - 1][k] == s[a..b][k] {
    }
  }

  ghost predicate OccursAt(s: string, sub: string, i: int) {
    0 <= i && i + |sub| <= |s| && s[i..i + |sub|] == sub
  }

  /** `sub in s`: some position of `s` starts a copy of `sub`. */
  function Contains(s: string, sub: string): (r: bool)
    ensures r <==> exists i :: OccursAt(s, sub, i)
    decreases |s|
  {
    if |sub| > |s| then
      assert forall i :: !OccursAt(s, sub, i);
      false
    else if s[..|sub|] == sub then
      assert OccursAt(s, sub, 0);
      true
    else
      var r := Contains(s[1..], sub);
      assert forall i :: OccursAt(s[1..], sub, i) ==> OccursAt(s, sub, i + 1) by {
        forall i | OccursAt(s[1..], sub, i) ensures OccursAt(s, sub, i + 1) {
          SliceOfTail(s, i + 1, i + 1 + |sub|);
        }
      }
      assert forall i :: OccursAt(s, sub, i) ==> OccursAt(s[1..], sub, i - 1) by {
        forall i | OccursAt(s, sub, i) ensures OccursAt(s[1..], sub, i - 1) {
          assert i != 0;
          SliceOfTail(s, i, i + |sub|);
        }
      }
      r
  }

  function StartsWith(s: string, prefix: string): bool {
    |prefix| <= |s| && s[..|prefix|] == prefix
  }

  /** A concatenation starts with its first part. */
  lemma StartsWithConcat(a: string, b: string)
    ensures StartsWith(a + b, a)
  {
    assert (a + b)[..|a|] == a;
  }

  /** A string starts with any prefix of its first part. */
  lemma StartsWithConcat3(a: string, b: string, c: string)
    ensures StartsWith(a + (b + c), a + b)
  {
    assert a + (b + c) == (a + b) + c;
    StartsWithConcat(a + b, c);
  }

  /** Regrouping four pieces of a concatenation. */
  lemma ConcatRegroup(a: string, b: string, c: string, d: string)
    ensures a + b + c + d == a + (b + (c + d))
  {
  }

  lemma Regroup5(a: string, b: string, c: string, d: string, e: string)
    ensures a + b + c + d + e == a + (b + (c + (d + e)))
    ensures a + b + c + d + e == (a + b) + ((c + d) + e)
  {
  }

  function EndsWith(s: string, suffix: string): bool {
    |suffix| <= |s| && s[|s| - |suffix|..] == suffix
  }

  lemma EndsWithConcat(a: string, b: string)
    ensures EndsWith(a + b, b)
  {
    assert (a + b)[|a + b| - |b|..] == b;
  }

  lemma EndsWithTrans(s: string, t: string, u: string)
    requires EndsWith(s, t) && EndsWith(t, u)
    ensures EndsWith(s, u)
  {
    assert s[|s| - |u|..] == s[|s| - |t|..][|t| - |u|..];
  }

  // ---------------------------------------------------------------------------
  // Building strings
  // ---------------------------------------------------------------------------

  /** sep.join(parts). */
  function Join(parts: seq<string>, sep: string): string
  {
    if parts == [] then ""
    else if |parts| == 1 then parts[0]
    else parts[0] + sep + Join(parts[1..], sep)
  }

  /** The position of the first `c` in `s`. */
  function FirstIndex(s: string, c: char): (i: nat)
    requires c in s
    ensures i < |s| && s[i] == c && c !in s[..i]
  {
    if s[0] == c then 0
    else
      assert s == [s[0]] + s[1..];
      1 + FirstIndex(s[1..], c)
  }

  /** s.split(c) for a one-character separator: the pieces between the
      separators, always at least one. */
  function Split(s: string, c: char): (parts: seq<string>)
    ensures |parts| >= 1
    decreases |s|
  {
    if c !in s then [s]
    else
      var i := FirstIndex(s, c);
      [s[..i]] + Split(s[i + 1..], c)
  }

  /** Splitting a joined list at the separator gives the list back, as long
      as no element holds the separator and the list is not empty. */
  lemma {:induction false} SplitJoin(parts: seq<string>, c: char)
    requires parts != []
    requires forall k :: 0 <= k < |parts| ==> c !in parts[k]
    ensures Split(Join(parts, [c]), c) == parts
    decreases |parts|
  {
    if |parts| > 1 {
      var p := parts[0];
      var rest := Join(parts[1..], [c]);
      var s := Join(parts, [c]);
      assert s == p + [c] + rest;
      FirstIndexAfter(p, c, rest);
      assert s[..|p|] == p;
      assert s[|p| + 1..] == rest;
      assert Split(s, c) == [p] + Split(rest, c);
      SplitJoin(parts[1..], c);
      assert parts == [p] + parts[1..];
    } else {
      assert Join(parts, [c]) == parts[0];
    }
  }

  /** The first separator after a piece without one ends that piece. */
  lemma {:induction false} FirstIndexAfter(p: string, c: char, rest: string)
    requires c !in p
    ensures c in p + [c] + rest && FirstIndex(p + [c] + rest, c) == |p|
    decreases |p|
  {
    var s := p + [c] + rest;
    assert s[|p|] == c;
    if p != [] {
      assert s[0] == p[0] && p[0] != c;
      assert s[1..] == p[1..] + [c] + rest;
      assert c !in p[1..] by {
        forall i | 0 <= i < |p[1..]| ensures p[1..][i] != c { assert p[1..][i] == p[i + 1]; }
      }
      FirstIndexAfter(p[1..], c, rest);
    }
  }

  /** The blocks rendered for `xs`, numbered from `first`, one after another
      (characters of a text, or lines of a list of lines). */
  function Blocks<T, U>(xs: seq<T>, first: nat, block: (nat, T) -> seq<U>): seq<U>
    decreases |xs|
  {
    if xs == [] then []
    else Blocks(xs[..|xs| - 1], first, block) + block(first + |xs| - 1, xs[|xs| - 1])
  }

  /** Rendering one more element appends its block. */
  lemma BlocksSnoc<T, U>(xs: seq<T>, x: T, first: nat, block: (nat, T) -> seq<U>)
    ensures Blocks(xs + [x], first, block) == Blocks(xs, first, block) + block(first + |xs|, x)
  {
    assert (xs + [x])[..|xs|] == xs;
  }

  /** Rendering one more element of a prefix appends its block. */
  lemma BlocksPrefixStep<T, U>(xs: seq<T>, i: nat, first: nat, block: (nat, T) -> seq<U>)
    requires i < |xs|
    ensures Blocks(xs[..i + 1], first, block) == Blocks(xs[..i], first, block) + block(first + i, xs[i])
  {
    assert xs[..i + 1][..i] == xs[..i];
  }

  /** When every element renders as exactly one piece, there is one piece
      per element, in order. */
  lemma {:induction false} BlocksOfSingletons<T, U>(xs: seq<T>, first: nat, block: (nat, T) -> seq<U>)
    requires forall n: nat, x: T :: |block(n, x)| == 1
    ensures |Blocks(xs, first, block)| == |xs|
    ensures forall k :: 0 <= k < |xs| ==> Blocks(xs, first, block)[k] == block(first + k, xs[k])[0]
    decreases |xs|
  {
    if xs != [] {
      var init := xs[..|xs| - 1];
      BlocksOfSingletons(init, first, block);
      var b := Blocks(xs, first, block);
      assert b == Blocks(init, first, block) + block(first + |init|, xs[|init|]);
      forall k | 0 <= k < |xs| ensures b[k] == block(first + k, xs[k])[0] {
        if k < |init| {
          assert xs[k] == init[k];
        }
      }
    }
  }

  /** Numbering does not matter to a rendering that ignores it. */
  lemma {:induction false} BlocksShift<T, U>(xs: seq<T>, first: nat, other: nat, block: (nat, T) -> seq<U>)
    requires forall n: nat, m: nat, x: T :: block(n, x) == block(m, x)
    ensures Blocks(xs, first, block) == Blocks(xs, other, block)
    decreases |xs|
  {
    if xs != [] {
      BlocksShift(xs[..|xs| - 1], first, other, block);
      assert block(first + |xs| - 1, xs[|xs| - 1]) == block(other + |xs| - 1, xs[|xs| - 1]);
    }
  }

  /** Every element of a rendering comes from the block of some element. */
  lemma {:induction false} BlocksMember<T, U>(xs: seq<T>, first: nat, block: (nat, T) -> seq<U>, k: nat)
    requires k < |Blocks(xs, first, block)|
    ensures exists i :: 0 <= i < |xs| && Blocks(xs, first, block)[k] in block(first + i, xs[i])
    decreases |xs|
  {
    assert xs != [];
    var init := xs[..|xs| - 1];
    var before := Blocks(init, first, block);
    var last := block(first + |init|, xs[|init|]);
    assert Blocks(xs, first, block) == before + last;
    if k < |before| {
      BlocksMember(init, first, block, k);
      var i :| 0 <= i < |init| && before[k] in block(first + i, init[i]);
      assert xs[i] == init[i];
    } else {
      assert Blocks(xs, first, block)[k] == last[k - |before|];
    }
  }

  /** Rendering two lists one after the other is rendering their
      concatenation: the second list's numbers continue the first's. */
  lemma {:induction false} BlocksConcat<T, U>(a: seq<T>, b: seq<T>, first: nat, block: (nat, T) -> seq<U>)
    ensures Blocks(a + b, first, block) == Blocks(a, first, block) + Blocks(b, first + |a|, block)
    decreases |b|
  {
    if b == [] {
      assert a + b == a;
    } else {
      var init := b[..|b| - 1];
      assert (a + b)[..|a + b| - 1] == a + init;
      BlocksConcat(a, init, first, block);
    }
  }

  /** A text made of a head, a middle and a tail starts with the head and
      the middle and ends with the middle and the tail. */
  lemma ThreeParts(a: string, b: string, c: string, d: string)
    ensures StartsWith(a + (b + (c + d)), a + b + c)
    ensures EndsWith(a + (b + (c + d)), c + d)
  {
    assert a + (b + (c + d)) == (a + b + c) + d;
    StartsWithConcat(a + b + c, d);
    assert a + (b + (c + d)) == (a + b) + (c + d);
    EndsWithConcat(a + b, c + d);
  }

  /** A text made of three parts starts with the first two and ends with the
      last two. */
  lemma Around(a: string, b: string, c: string)
    ensures StartsWith(a + b + c, a + b)
    ensures EndsWith(a + b + c, b + c)
  {
    StartsWithConcat(a + b, c);
    assert a + b + c == a + (b + c);
    EndsWithConcat(a, b + c);
  }

  /** An empty middle part leaves the head and the tail adjacent. */
  lemma EmptyMiddle(a: string, b: string, c: string)
    requires b == []
    ensures a + b + c == a + c
  {
  }

  /** The rendering splits around element `k`, whose block carries number
      `first + k`. */
  lemma BlocksSplitAt<T, U>(xs: seq<T>, k: nat, first: nat, block: (nat, T) -> seq<U>)
    requires k < |xs|
    ensures Blocks(xs, first, block) ==
              Blocks(xs[..k], first, block) + block(first + k, xs[k]) + Blocks(xs[k + 1..], first + k + 1, block)
  {
    var before, rest := xs[..k], xs[k..];
    assert xs == before + rest;
    assert rest == [xs[k]] + xs[k + 1..];
    BlocksConcat(before, rest, first, block);
    BlocksConcat([xs[k]], xs[k + 1..], first + k, block);
    BlocksSnoc([], xs[k], first + k, block);
    assert [] + [xs[k]] == [xs[k]];
  }

  /** s.replace(pat, rep) for a non-empty pattern: occurrences are replaced
      left to right and never overlap. */
  function ReplaceAll(s: string, pat: string, rep: string): (r: string)
    requires pat != []
    decreases |s|
  {
    if |s| < |pat| then s
    else if s[..|pat|] == pat then rep + ReplaceAll(s[|pat|..], pat, rep)
    else [s[0]] + ReplaceAll(s[1..], pat, rep)
  }

  /** A copy of `sub` in the tail of `s` is a copy in `s`. */
  lemma ContainsTail(s: string, sub: string)
    requires s != []
    ensures Contains(s[1..], sub) ==> Contains(s, sub)
  {
    if Contains(s[1..], sub) {
      var i :| OccursAt(s[1..], sub, i);
      SliceOfTail(s, i + 1, i + 1 + |sub|);
      assert OccursAt(s, sub, i + 1);
    }
  }

  /** A string containing `pre + sub` contains `sub`. */
  lemma ContainsAfterPrefix(s: string, pre: string, sub: string)
    requires Contains(s, pre + sub)
    ensures Contains(s, sub)
  {
    var i :| OccursAt(s, pre + sub, i);
    assert s[i + |pre|..i + |pre| + |sub|] == s[i..i + |pre + sub|][|pre|..];
    assert OccursAt(s, sub, i + |pre|);
  }

  /** A string without the pattern is left as it is by a replacement. */
  lemma {:induction false} ReplaceAbsent(s: string, pat: string, rep: string)
    requires pat != [] && !Contains(s, pat)
    ensures ReplaceAll(s, pat, rep) == s
    decreases |s|
  {
    if |s| >= |pat| {
      assert !OccursAt(s, pat, 0);
      ContainsTail(s, pat);
      ReplaceAbsent(s[1..], pat, rep);
      assert [s[0]] + s[1..] == s;
    }
  }

  /** A copy of a pattern in the tail of a string is a copy one place
      further on in the string. */
  lemma OccursInTail(s: string, pat: string, i: int)
    requires s != [] && 0 <= i
    ensures OccursAt(s[1..], pat, i) ==> OccursAt(s, pat, i + 1)
  {
    if i + 1 + |pat| <= |s| {
      SliceOfTail(s, i + 1, i + 1 + |pat|);
    }
  }

  /** Where no copy of the pattern starts at the front, the first character
      is kept. */
  lemma ReplaceKeepsFirst(s: string, pat: string, rep: string)
    requires pat != [] && s != [] && !OccursAt(s, pat, 0)
    ensures ReplaceAll(s, pat, rep) == [s[0]] + ReplaceAll(s[1..], pat, rep)
  {
  }

  /** A prefix in which no copy of the pattern starts is kept as it is, and
      the replacement goes on after it. */
  lemma {:induction false} ReplaceAfterPlainPrefix(pre: string, rest: string, pat: string, rep: string)
    requires pat != []
    requires forall i :: 0 <= i < |pre| ==> !OccursAt(pre + rest, pat, i)
    ensures ReplaceAll(pre + rest, pat, rep) == pre + ReplaceAll(rest, pat, rep)
    decreases |pre|
  {
    if pre == [] {
      assert pre + rest == rest;
    } else {
      var s := pre + rest;
      var tail := pre[1..] + rest;
      assert s[1..] == tail;
      forall i | 0 <= i < |pre| - 1 ensures !OccursAt(tail, pat, i) {
        OccursInTail(s, pat, i);
      }
      ReplaceAfterPlainPrefix(pre[1..], rest, pat, rep);
      ReplaceKeepsFirst(s, pat, rep);
      assert [pre[0]] + pre[1..] == pre;
    }
  }

  /** A copy of the pattern at the start is replaced. */
  lemma ReplaceAtStart(pat: string, rest: string, rep: string)
    requires pat != []
    ensures ReplaceAll(pat + rest, pat, rep) == rep + ReplaceAll(rest, pat, rep)
  {
    assert (pat + rest)[..|pat|] == pat;
    assert (pat + rest)[|pat|..] == rest;
  }

  function DigitChar(d: nat): (c: char)
    requires d < 10
    ensures '0' <= c <= '9' && c as int - '0' as int == d
  {
    (d + '0' as int) as char
  }

  predicate AllDigits(s: string) {
    forall i :: 0 <= i < |s| ==> '0' <= s[i] <= '9'
  }

  /** str(n) for a natural number: its decimal digits, most significant first. */
  function NatToString(n: nat): (r: string)
    ensures r != [] && AllDigits(r)
  {
    if n < 10 then [DigitChar(n)] else NatToString(n / 10) + [DigitChar(n % 10)]
  }

  /** int(s) for a string of decimal digits. */
  function DigitsValue(s: string): nat
    requires AllDigits(s)
  {
    if s == [] then 0
    else DigitsValue(s[..|s| - 1]) * 10 + (s[|s| - 1] as int - '0' as int)
  }

  /** Reading back the decimal rendering of a number gives the number. */
  lemma {:induction false} NatToStringRoundTrip(n: nat)
    ensures DigitsValue(NatToString(n)) == n
  {
    if n >= 10 {
      NatToStringRoundTrip(n / 10);
      var r := NatToString(n);
      assert r[..|r| - 1] == NatToString(n / 10);
    }
  }

  /** Python's prefix slice s[:n]; a negative n counts from the end. */
  function Take<T>(s: seq<T>, n: int): (r: seq<T>)
    ensures |r| <= |s| && r == s[..|r|]
    ensures 0 <= n ==> |r| == if n < |s| then n else |s|
    ensures n < 0 ==> |r| == if |s| + n < 0 then 0 else |s| + n
  {
    if n >= 0 then (if n < |s| then s[..n] else s)
    else if |s| + n < 0 then []
    else s[..|s| + n]
  }

  /** A text longer than `limit` becomes its first `keep` characters followed
      by "..."; a shorter one is kept. */
  function Truncate(s: string, limit: nat, keep: nat): string
    requires keep <= limit
  {
    if |s| > limit then s[..keep] + "..." else s
  }

  /** When `keep + 3 == limit` a truncated text is never longer than `limit`,
      starts like the original, and truncating it again changes nothing. */
  lemma TruncateBounded(s: string, limit: nat, keep: nat)
    requires keep + 3 == limit
    ensures |Truncate(s, limit, keep)| <= limit
    ensures |s| > limit ==> |Truncate(s, limit, keep)| == limit
    ensures |s| > limit ==> Truncate(s, limit, keep)[..keep] == s[..keep]
    ensures |s| <= limit ==> Truncate(s, limit, keep) == s
    ensures Truncate(Truncate(s, limit, keep), limit, keep) == Truncate(s, limit, keep)
  {
  }

  // ---------------------------------------------------------------------------
  // Keyed pairs: Python's dict(pairs), where the last pair of a key wins
  // ---------------------------------------------------------------------------

  /** Position `i` holds the last pair with key `key`. */
  ghost predicate LastKeyAt<V>(pairs: seq<(string, V)>, key: string, i: int) {
    0 <= i < |pairs| && pairs[i].0 == key && forall j :: i < j < |pairs| ==> pairs[j].0 != key
  }

  /** dict(pairs).get(key): the value of the last pair with that key. */
  function LastValue<V>(pairs: seq<(string, V)>, key: string): (r: Option<V>)
    ensures r.None? <==> forall i :: 0 <= i < |pairs| ==> pairs[i].0 != key
    ensures r.Some? ==> exists i :: LastKeyAt(pairs, key, i) && pairs[i].1 == r.value
  {
    if pairs == [] then None
    else if pairs[|pairs| - 1].0 == key then
      assert LastKeyAt(pairs, key, |pairs| - 1);
      Some(pairs[|pairs| - 1].1)
    else
      var init := pairs[..|pairs| - 1];
      var r := LastValue(init, key);
      assert forall i :: LastKeyAt(init, key, i) ==> LastKeyAt(pairs, key, i);
      assert forall i :: 0 <= i < |init| ==> init[i] == pairs[i];
      r
  }

  /** A single pair gives its value for its own key. */
  lemma LastValueOfOne<V>(key: string, v: V)
    ensures LastValue([(key, v)], key) == Some(v)
  {
  }

  // ---------------------------------------------------------------------------
  // Filtering and subsequences (list comprehensions with an `if`)
  // ---------------------------------------------------------------------------

  /** `a` occurs in `b` in order, possibly with gaps. */
  predicate IsSubsequence<T(==)>(a: seq<T>, b: seq<T>)
    decreases |b|
  {
    if a == [] then true
    else if b == [] then false
    else if a[|a| - 1] == b[|b| - 1] then IsSubsequence(a[..|a| - 1], b[..|b| - 1])
    else IsSubsequence(a, b[..|b| - 1])
  }

  lemma {:induction false} SubsequenceDropLast<T>(a: seq<T>, b: seq<T>)
    requires a != [] && IsSubsequence(a, b)
    ensures IsSubsequence(a[..|a| - 1], b)
    decreases |b|, 0
  {
    if a[|a| - 1] == b[|b| - 1] {
      SubsequenceExtend(a[..|a| - 1], b[..|b| - 1], b[|b| - 1]);
      assert b[..|b| - 1] + [b[|b| - 1]] == b;
    } else {
      SubsequenceDropLast(a, b[..|b| - 1]);
      SubsequenceExtend(a[..|a| - 1], b[..|b| - 1], b[|b| - 1]);
      assert b[..|b| - 1] + [b[|b| - 1]] == b;
    }
  }

  /** A subsequence of `b` is a subsequence of `b` with one more element. */
  lemma {:induction false} SubsequenceExtend<T>(a: seq<T>, b: seq<T>, x: T)
    requires IsSubsequence(a, b)
    ensures IsSubsequence(a, b + [x])
    decreases |b|, 1
  {
    if a != [] {
      assert (b + [x])[..|b|] == b;
      if a[|a| - 1] == x {
        SubsequenceDropLast(a, b);
      }
    }
  }

  lemma SubsequenceSnoc<T>(a: seq<T>, b: seq<T>, x: T)
    requires IsSubsequence(a, b)
    ensures IsSubsequence(a + [x], b + [x])
  {
    assert (a + [x])[..|a|] == a;
    assert (b + [x])[..|b|] == b;
  }

  /** [x for x in s if keep(x)]. */
  function Filter<T>(s: seq<T>, keep: T -> bool): (r: seq<T>)
    ensures |r| <= |s|
    ensures forall i :: 0 <= i < |r| ==> r[i] in s && keep(r[i])
    ensures forall i :: 0 <= i < |s| && keep(s[i]) ==> s[i] in r
  {
    if s == [] then []
    else
      var rest := Filter(s[..|s| - 1], keep);
      assert s == s[..|s| - 1] + [s[|s| - 1]];
      if keep(s[|s| - 1]) then rest + [s[|s| - 1]] else rest
  }

  /** Nothing survives a filter that keeps none of the elements. */
  lemma {:induction false} FilterNone<T>(s: seq<T>, keep: T -> bool)
    requires forall i :: 0 <= i < |s| ==> !keep(s[i])
    ensures Filter(s, keep) == []
    decreases |s|
  {
    if s != [] {
      FilterNone(s[..|s| - 1], keep);
    }
  }

  /** Everything survives a filter that keeps every element. */
  lemma {:induction false} FilterAll<T>(s: seq<T>, keep: T -> bool)
    requires forall i :: 0 <= i < |s| ==> keep(s[i])
    ensures Filter(s, keep) == s
    decreases |s|
  {
    if s != [] {
      FilterAll(s[..|s| - 1], keep);
      assert s == s[..|s| - 1] + [s[|s| - 1]];
    }
  }

  /** Something survives a filter exactly when some element is kept. */
  lemma FilterNonEmpty<T>(s: seq<T>, keep: T -> bool)
    ensures Filter(s, keep) != [] <==> exists i :: 0 <= i < |s| && keep(s[i])
  {
    if exists i :: 0 <= i < |s| && keep(s[i]) {
      var i :| 0 <= i < |s| && keep(s[i]);
      assert s[i] in Filter(s, keep);
    } else {
      FilterNone(s, keep);
    }
  }

  lemma FilterSnoc<T>(s: seq<T>, x: T, keep: T -> bool)
    ensures Filter(s + [x], keep) == Filter(s, keep) + (if keep(x) then [x] else [])
  {
    assert (s + [x])[..|s|] == s;
  }

  /** The filter of a prefix one element longer. */
  lemma FilterPrefixStep<T>(s: seq<T>, i: int, keep: T -> bool)
    requires 0 <= i < |s|
    ensures Filter(s[..i + 1], keep) == Filter(s[..i], keep) + (if keep(s[i]) then [s[i]] else [])
  {
    assert s[..i + 1] == s[..i] + [s[i]];
    FilterSnoc(s[..i], s[i], keep);
  }

  /** Filtering keeps the survivors in their original relative order. */
  lemma {:induction false} FilterIsSubsequence<T>(s: seq<T>, keep: T -> bool)
    ensures IsSubsequence(Filter(s, keep), s)
    decreases |s|
  {
    if s != [] {
      var init, x := s[..|s| - 1], s[|s| - 1];
      assert s == init + [x];
      FilterIsSubsequence(init, keep);
      FilterSnoc(init, x, keep);
      if keep(x) {
        SubsequenceSnoc(Filter(init, keep), init, x);
      } else {
        SubsequenceExtend(Filter(init, keep), init, x);
      }
    }
  }

  lemma {:induction false} FilterConcat<T>(a: seq<T>, b: seq<T>, keep: T -> bool)
    ensures Filter(a + b, keep) == Filter(a, keep) + Filter(b, keep)
    decreases |b|
  {
    if b == [] {
      assert a + b == a;
    } else {
      var init, x := b[..|b| - 1], b[|b| - 1];
      assert b == init + [x];
      assert a + b == (a + init) + [x];
      FilterConcat(a, init, keep);
      FilterSnoc(a + init, x, keep);
      FilterSnoc(init, x, keep);
    }
  }

  /** Filtering keeps every copy of a kept value and no copy of the others. */
  lemma {:induction false} FilterCounts<T>(s: seq<T>, keep: T -> bool, x: T)
    ensures multiset(Filter(s, keep))[x] == if keep(x) then multiset(s)[x] else 0
    decreases |s|
  {
    if s != [] {
      var init, y := s[..|s| - 1], s[|s| - 1];
      assert s == init + [y];
      FilterCounts(init, keep, x);
      FilterSnoc(init, y, keep);
    }
  }

  /** Filtering shortens a sequence exactly when some element is rejected. */
  lemma {:induction false} FilterShortens<T>(s: seq<T>, keep: T -> bool)
    ensures |Filter(s, keep)| < |s| <==> exists x :: x in s && !keep(x)
    ensures |Filter(s, keep)| == |s| ==> Filter(s, keep) == s
    decreases |s|
  {
    if s != [] {
      var init, x := s[..|s| - 1], s[|s| - 1];
      assert s == init + [x];
      FilterShortens(init, keep);
      FilterSnoc(init, x, keep);
      assert forall y :: y in s <==> y in init || y == x;
    }
  }

  /** Python truthiness of an optional string: present and non-empty. */
  predicate Truthy(o: Option<string>) {
    o.Some? && o.value != ""
  }

  /** A news item: a dictionary from field names to text. */
  type Item = map<string, string>

  /** dict.get(key) on a dictionary of strings. */
  function Get(m: map<string, string>, key: string): (r: Option<string>)
    ensures r.Some? <==> key in m
    ensures r.Some? ==> r.value == m[key]
  {
    if key in m then Some(m[key]) else None
  }

  /** dict.get(key, default). */
  function GetOr(m: map<string, string>, key: string, default: string): string {
    if key in m then m[key] else default
  }

  // ---------------------------------------------------------------------------
  // Tables written by csv.DictWriter (quoting is the csv module's business)
  // ---------------------------------------------------------------------------

  datatype CsvTable = CsvTable(header: seq<string>, rows: seq<seq<string>>)
}
