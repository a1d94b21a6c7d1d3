/**
 * The fragment of regular expressions the identifier checks use: an anchored
 * concatenation of bracketed character classes, each with a repetition count
 * `{lo,hi}`. Two anchoring disciplines are modelled:
 *  - `FullMatch`: JavaScript's `/^...$/.test(s)` without the `m` flag, where
 *    `$` matches only at the end of the input;
 *  - `PyDollarMatch`: Python's `re.compile("^...$").match(s)`, where `$` also
 *    matches just before a single newline that ends the input.
 */
module Regex {

  /** A bracketed class `[...]`: a union of inclusive character ranges. */
  datatype CharClass = Ranges(ranges: seq<(char, char)>)

  /** One atom of a pattern, `[cls]{lo,hi}`. */
  datatype Piece = Piece(cls: CharClass, lo: nat, hi: nat)

  type Pattern = seq<Piece>

  predicate InRanges(c: char, rs: seq<(char, char)>) {
    |rs| > 0 && ((rs[0].0 <= c <= rs[0].1) || InRanges(c, rs[1..]))
  }

  predicate InClass(c: char, k: CharClass) { InRanges(c, k.ranges) }

  predicate AllIn(s: string, k: CharClass) {
    forall i :: 0 <= i < |s| ==> InClass(s[i], k)
  }

  /** `[cls]{n}`. */
  function Exactly(cls: CharClass, n: nat): Piece { Piece(cls, n, n) }

  /**
   * The whole of `s` matches `p`. A backtracking matcher: the first piece
   * tries every admissible count, shortest first, and the rest of the pattern
   * must match the rest of the input.
   */
  predicate FullMatch(p: Pattern, s: string)
    decreases |p|, 1, 0
  {
    if p == [] then s == [] else MatchWithCount(p, s, p[0].lo)
  }

  /** Some count `n >= k` of the first piece leads to a full match. */
  predicate MatchWithCount(p: Pattern, s: string, k: nat)
    requires p != []
    decreases |p|, 0, p[0].hi + 1 - k
  {
    if k > p[0].hi || k > |s| then false
    else (AllIn(s[..k], p[0].cls) && FullMatch(p[1..], s[k..])) || MatchWithCount(p, s, k + 1)
  }

  /**
   * Python's `re.match` anchored by `^` and `$`: the pattern matches a prefix
   * `s[..n]` of the input and `$` holds at `n`, that is, `n` is the end of the
   * input or the position of a newline that is its last character.
   */
  predicate PyDollarMatch(p: Pattern, s: string) {
    exists n :: 0 <= n <= |s| && FullMatch(p, s[..n]) && (n == |s| || (n == |s| - 1 && s[n] == '\n'))
  }

  /** The first piece consumes exactly `n` characters and the rest matches the rest. */
  predicate SplitsAt(p: Pattern, s: string, n: nat) {
    && p != []
    && p[0].lo <= n <= p[0].hi
    && n <= |s|
    && AllIn(s[..n], p[0].cls)
    && FullMatch(p[1..], s[n..])
  }

  lemma {:induction false} MatchWithCountSplits(p: Pattern, s: string, k: nat)
    requires p != [] && p[0].lo <= k
    ensures MatchWithCount(p, s, k) <==> exists n: nat :: k <= n && SplitsAt(p, s, n)
    decreases p[0].hi + 1 - k
  {
    if k > p[0].hi || k > |s| {
      assert forall n: nat :: k <= n ==> !SplitsAt(p, s, n);
    } else {
      assert MatchWithCount(p, s, k) == (SplitsAt(p, s, k) || MatchWithCount(p, s, k + 1));
      MatchWithCountSplits(p, s, k + 1);
      if SplitsAt(p, s, k) {
        assert MatchWithCount(p, s, k);
      }
      if MatchWithCount(p, s, k + 1) {
        var n: nat :| k + 1 <= n && SplitsAt(p, s, n);
        assert k <= n;
      }
      forall n | k <= n && SplitsAt(p, s, n)
        ensures MatchWithCount(p, s, k)
      {
        if n == k {
        } else {
          assert k + 1 <= n;
        }
      }
    }
  }

  /** A pattern matches exactly when its first piece can take some admissible share of the input. */
  lemma FullMatchSplits(p: Pattern, s: string)
    requires p != []
    ensures FullMatch(p, s) <==> exists n: nat :: SplitsAt(p, s, n)
  {
    MatchWithCountSplits(p, s, p[0].lo);
  }

  /** Python's anchoring accepts exactly the full matches and the full matches followed by one newline. */
  lemma PyDollarMatchCases(p: Pattern, s: string)
    ensures PyDollarMatch(p, s) <==>
      FullMatch(p, s) || (|s| > 0 && s[|s| - 1] == '\n' && FullMatch(p, s[..|s| - 1]))
  {
    if FullMatch(p, s) {
      assert s[..|s|] == s;
    }
    if PyDollarMatch(p, s) {
      var n :| 0 <= n <= |s| && FullMatch(p, s[..n]) && (n == |s| || (n == |s| - 1 && s[n] == '\n'));
      if n == |s| {
        assert s[..n] == s;
      }
    }
  }

  /** The shortest and longest inputs a pattern can match. */
  function MinLen(p: Pattern): nat {
    if p == [] then 0 else p[0].lo + MinLen(p[1..])
  }

  function MaxLen(p: Pattern): nat {
    if p == [] then 0 else p[0].hi + MaxLen(p[1..])
  }

  lemma {:induction false} FullMatchLength(p: Pattern, s: string)
    requires FullMatch(p, s)
    ensures MinLen(p) <= |s| <= MaxLen(p)
    decreases |p|
  {
    if p != [] {
      FullMatchSplits(p, s);
      var n: nat :| SplitsAt(p, s, n);
      FullMatchLength(p[1..], s[n..]);
    }
  }

  /** Every piece has a fixed count, so every match has the same length. */
  predicate Fixed(p: Pattern) {
    forall i :: 0 <= i < |p| ==> p[i].lo == p[i].hi
  }

  function Repeat(k: CharClass, n: nat): (r: seq<CharClass>)
    ensures |r| == n
    ensures forall i :: 0 <= i < n ==> r[i] == k
  {
    if n == 0 then [] else [k] + Repeat(k, n - 1)
  }

  /** A fixed pattern unrolled to the class each position of a match must belong to. */
  function Expand(p: Pattern): (r: seq<CharClass>)
    requires Fixed(p)
  {
    if p == [] then [] else Repeat(p[0].cls, p[0].lo) + Expand(p[1..])
  }

  /** A fixed pattern matches exactly the strings of its length whose characters fall in the classes position by position. */
  lemma {:induction false} FixedMatch(p: Pattern, s: string)
    requires Fixed(p)
    ensures FullMatch(p, s) <==>
      |s| == |Expand(p)| && forall i :: 0 <= i < |s| ==> InClass(s[i], Expand(p)[i])
    decreases |p|
  {
    if p != [] {
      var n := p[0].lo;
      var e := Expand(p);
      var e' := Expand(p[1..]);
      assert e == Repeat(p[0].cls, n) + e';
      FullMatchSplits(p, s);
      if n <= |s| {
        FixedMatch(p[1..], s[n..]);
        if FullMatch(p, s) {
          var m: nat :| SplitsAt(p, s, m);
          assert m == n;
          forall i | 0 <= i < |s|
            ensures InClass(s[i], e[i])
          {
            if i < n {
              assert s[..n][i] == s[i];
            } else {
              assert s[n..][i - n] == s[i];
            }
          }
        }
        if |s| == |e| && forall i :: 0 <= i < |s| ==> InClass(s[i], e[i]) {
          assert AllIn(s[..n], p[0].cls) by {
            forall i | 0 <= i < n ensures InClass(s[..n][i], p[0].cls) {
              assert e[i] == p[0].cls;
            }
          }
          assert forall i :: 0 <= i < |s[n..]| ==> InClass(s[n..][i], e'[i]) by {
            forall i | 0 <= i < |s[n..]| ensures InClass(s[n..][i], e'[i]) {
              assert s[n..][i] == s[n + i];
              assert e[n + i] == e'[i];
            }
          }
          assert SplitsAt(p, s, n);
        }
      } else {
        assert forall m: nat :: !SplitsAt(p, s, m);
      }
    }
  }

  /** Matching a pattern that starts with a known piece. */
  lemma FullMatchCons(x: Piece, q: Pattern, s: string)
    ensures FullMatch([x] + q, s) <==>
      exists n: nat :: x.lo <= n <= x.hi && n <= |s| && AllIn(s[..n], x.cls) && FullMatch(q, s[n..])
  {
    var p := [x] + q;
    assert p[0] == x && p[1..] == q;
    FullMatchSplits(p, s);
    assert forall n: nat :: SplitsAt(p, s, n) <==>
      x.lo <= n <= x.hi && n <= |s| && AllIn(s[..n], x.cls) && FullMatch(q, s[n..]);
  }

  /** A one-piece pattern `[cls]{lo,hi}` accepts exactly the strings of an admissible length drawn from the class. */
  lemma SinglePieceMatch(x: Piece, s: string)
    ensures FullMatch([x], s) <==> x.lo <= |s| <= x.hi && AllIn(s, x.cls)
  {
    assert [x] == [x] + [];
    FullMatchCons(x, [], s);
    if x.lo <= |s| <= x.hi && AllIn(s, x.cls) {
      assert s[..|s|] == s && s[|s|..] == [];
    }
  }

  /** Membership in a class is membership in one of its ranges. */
  lemma {:induction false} InRangesAny(c: char, rs: seq<(char, char)>)
    ensures InRanges(c, rs) <==> exists j :: 0 <= j < |rs| && rs[j].0 <= c <= rs[j].1
  {
    if rs != [] {
      InRangesAny(c, rs[1..]);
      if InRanges(c, rs[1..]) {
        var j :| 0 <= j < |rs[1..]| && rs[1..][j].0 <= c <= rs[1..][j].1;
        assert rs[j + 1] == rs[1..][j];
      }
      forall j | 1 <= j < |rs| && rs[j].0 <= c <= rs[j].1 ensures InRanges(c, rs[1..]) {
        assert rs[1..][j - 1] == rs[j];
      }
    }
  }
}
