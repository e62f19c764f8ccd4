/**
 * Text primitives used by the orchestrator's string templates: decimal
 * rendering of numbers, Array.prototype.join, String.prototype.split on one
 * character, the two ways the source takes the last component of a path, and
 * concatenation of a sequence of rendered blocks.
 */
module Text {

  /**
   * `needle` occurs in `hay` starting at index `at`. (Stated with `hay[at..]`
   * rather than `hay[at..at + |needle|]` so that `at` is never summed with
   * another length inside a sequence term.)
   */
  ghost predicate Occurs(needle: string, hay: string, at: int)
  {
    0 <= at <= |hay| && |needle| <= |hay| - at && hay[at..][..|needle|] == needle
  }

  ghost predicate IsSuffix(p: string, s: string)
  {
    |p| <= |s| && s[|s| - |p|..] == p
  }

  lemma OccursInConcat(a: string, needle: string, b: string)
    ensures Occurs(needle, a + needle + b, |a|)
  {
    assert (a + needle + b)[|a|..] == needle + b;
    assert (needle + b)[..|needle|] == needle;
  }

  lemma OccursAtEnd(a: string, needle: string)
    ensures Occurs(needle, a + needle, |a|)
  {
    assert (a + needle)[|a|..] == needle;
  }

  lemma OccursAtStart(needle: string, b: string)
    ensures Occurs(needle, needle + b, 0)
  {
    assert (needle + b)[0..] == needle + b;
    assert (needle + b)[..|needle|] == needle;
  }

  lemma OccursExtend(needle: string, s: string, at: int, t: string)
    requires Occurs(needle, s, at)
    ensures Occurs(needle, s + t, at)
  {
    assert (s + t)[at..] == s[at..] + t;
    assert (s[at..] + t)[..|needle|] == s[at..][..|needle|];
  }

  lemma OccursTrans(a: string, b: string, i: int, c: string, j: int)
    requires Occurs(a, b, i) && Occurs(b, c, j)
    ensures Occurs(a, c, j + i)
  {
    forall k | 0 <= k < |a|
      ensures c[j + i + k] == a[k]
    {
      assert b[i..][..|a|][k] == b[i + k];
      assert c[j..][..|b|][i + k] == c[j + i + k];
    }
    assert c[j + i..][..|a|] == a;
  }

  /** `OccursTrans` with both offsets given as the lengths of the text before them. */
  lemma OccursWithin(a: string, b: string, p: string, c: string, q: string)
    requires Occurs(a, b, |p|) && Occurs(b, c, |q|)
    ensures Occurs(a, c, |q + p|)
  {
    OccursTrans(a, b, |p|, c, |q|);
  }

  /** Where each of six consecutive pieces sits in their concatenation. */
  lemma ConcatLayout(a: string, b: string, c: string, d: string, e: string, f: string)
    ensures Occurs(a, a + b + c + d + e + f, 0)
    ensures Occurs(b, a + b + c + d + e + f, |a|)
    ensures Occurs(c, a + b + c + d + e + f, |a + b|)
    ensures Occurs(d, a + b + c + d + e + f, |a + b + c|)
    ensures Occurs(e, a + b + c + d + e + f, |a + b + c + d|)
    ensures Occurs(f, a + b + c + d + e + f, |a + b + c + d + e|)
  {
    OccursAtStart(a, b + c + d + e + f);
    assert a + (b + c + d + e + f) == a + b + c + d + e + f;
    OccursInConcat(a, b, c + d + e + f);
    assert a + b + (c + d + e + f) == a + b + c + d + e + f;
    OccursInConcat(a + b, c, d + e + f);
    assert a + b + c + (d + e + f) == a + b + c + d + e + f;
    OccursInConcat(a + b + c, d, e + f);
    assert a + b + c + d + (e + f) == a + b + c + d + e + f;
    OccursInConcat(a + b + c + d, e, f);
    OccursAtEnd(a + b + c + d + e, f);
  }

  lemma SuffixAtEnd(a: string, b: string)
    ensures IsSuffix(b, a + b)
  {
    assert (a + b)[|a + b| - |b|..] == b;
  }

  /** `y + z` ends `p + (x + y) + z`. */
  lemma SuffixAfter(p: string, x: string, y: string, z: string)
    ensures IsSuffix(y + z, p + (x + y) + z)
  {
    assert p + (x + y) + z == (p + x) + (y + z);
    SuffixAtEnd(p + x, y + z);
  }

  /** A suffix of `s` fixes the characters at the end of `s`. */
  lemma SuffixChar(x: string, s: string, k: nat)
    requires k < |x|
    ensures IsSuffix(x, s) ==> s[|s| - 1 - k] == x[|x| - 1 - k]
  {
    if IsSuffix(x, s) {
      assert s[|s| - |x|..][|x| - 1 - k] == s[|s| - 1 - k];
    }
  }

  // ---------------------------------------------------------------------------
  // Decimal rendering (what a JavaScript template literal prints for an integer)
  // ---------------------------------------------------------------------------

  function Digit(d: nat): (c: char)
    requires d < 10
    ensures '0' <= c <= '9' && c as int - '0' as int == d
  {
    ('0' as int + d) as char
  }

  ghost predicate AllDigits(s: string)
  {
    forall i :: 0 <= i < |s| ==> '0' <= s[i] <= '9'
  }

  /** The shortest decimal numeral of `n`: no leading zero unless `n` is 0. */
  function Decimal(n: nat): (s: string)
    ensures |s| >= 1 && AllDigits(s)
    ensures |s| > 1 ==> s[0] != '0'
    decreases n
  {
    if n < 10 then [Digit(n)] else Decimal(n / 10) + [Digit(n % 10)]
  }

  /** Reads a numeral back: the reference the rendering is checked against. */
  function DecimalValue(s: string): nat
    requires AllDigits(s)
  {
    if s == [] then 0 else 10 * DecimalValue(s[..|s| - 1]) + (s[|s| - 1] as int - '0' as int)
  }

  lemma {:induction false} DecimalRoundTrip(n: nat)
    ensures DecimalValue(Decimal(n)) == n
    decreases n
  {
    if n >= 10 {
      DecimalRoundTrip(n / 10);
      var s := Decimal(n);
      assert s[..|s| - 1] == Decimal(n / 10);
    }
  }

  /** Distinct numbers get distinct numerals. */
  lemma DecimalInjective(m: nat, n: nat)
    ensures Decimal(m) == Decimal(n) <==> m == n
  {
    if Decimal(m) == Decimal(n) {
      DecimalRoundTrip(m);
      DecimalRoundTrip(n);
    }
  }

  /** An integer as JavaScript prints it: a minus sign for negatives. */
  function IntText(i: int): (s: string)
    ensures |s| >= 1
    ensures (s[0] == '-') <==> i < 0
  {
    if i < 0 then "-" + Decimal(-i) else Decimal(i)
  }

  /** Different integers print differently. */
  lemma IntTextInjective(i: int, j: int)
    ensures IntText(i) == IntText(j) <==> i == j
  {
    if IntText(i) == IntText(j) {
      if i < 0 {
        assert IntText(i)[1..] == Decimal(-i);
        assert IntText(j)[1..] == Decimal(-j);
        DecimalInjective(-i, -j);
      } else {
        DecimalInjective(i, j);
      }
    }
  }

  // ---------------------------------------------------------------------------
  // Array.prototype.join and String.prototype.split with a one-character separator
  // ---------------------------------------------------------------------------

  /** `parts.join(sep)`: the empty array joins to "". */
  function Join(parts: seq<string>, sep: string): string
  {
    if |parts| == 0 then ""
    else if |parts| == 1 then parts[0]
    else parts[0] + sep + Join(parts[1..], sep)
  }

  lemma {:induction false} JoinAppend(a: seq<string>, b: seq<string>, sep: string)
    requires |a| >= 1 && |b| >= 1
    ensures Join(a + b, sep) == Join(a, sep) + sep + Join(b, sep)
  {
    if |a| == 1 {
      assert (a + b)[1..] == b;
    } else {
      assert (a + b)[1..] == a[1..] + b;
      JoinAppend(a[1..], b, sep);
    }
  }

  /** `s.split(c)`: every occurrence of `c` separates two (possibly empty) fields. */
  function Split(s: string, c: char): (parts: seq<string>)
    ensures |parts| >= 1
  {
    if s == [] then [""]
    else
      var rest := Split(s[1..], c);
      if s[0] == c then [""] + rest else [[s[0]] + rest[0]] + rest[1..]
  }

  lemma {:induction false} SplitSegment(x: string, c: char, rest: string)
    requires c !in x
    ensures Split(x + rest, c)[0] == x + Split(rest, c)[0]
    ensures Split(x + rest, c)[1..] == Split(rest, c)[1..]
  {
    if x != [] {
      assert (x + rest)[1..] == x[1..] + rest;
      SplitSegment(x[1..], c, rest);
    } else {
      assert x + rest == rest;
    }
  }

  /** Splitting a join on a separator that no part contains gives the parts back. */
  lemma {:induction false} SplitJoin(parts: seq<string>, c: char)
    requires |parts| >= 1
    requires forall i :: 0 <= i < |parts| ==> c !in parts[i]
    ensures Split(Join(parts, [c]), c) == parts
  {
    if |parts| == 1 {
      SplitSegment(parts[0], c, []);
      assert parts[0] + [] == parts[0];
      var whole := Split(parts[0], c);
      assert whole[0] == parts[0] && whole[1..] == [];
    } else {
      var tail := Join(parts[1..], [c]);
      SplitJoin(parts[1..], c);
      assert parts[0] + [c] + tail == parts[0] + ([c] + tail);
      SplitSegment(parts[0], c, [c] + tail);
      assert ([c] + tail)[1..] == tail;
      assert Split([c] + tail, c) == [""] + Split(tail, c);
      var whole := Split(Join(parts, [c]), c);
      assert whole[0] == parts[0] && whole[1..] == parts[1..];
      assert parts == [parts[0]] + parts[1..];
    }
  }

  // ---------------------------------------------------------------------------
  // Path components
  // ---------------------------------------------------------------------------

  /**
   * `p.split('/').pop()`: the longest suffix of `p` without a '/', which is
   * either all of `p` or starts right after a '/'.
   */
  function LastSegment(p: string): string
  {
    if p == [] || p[|p| - 1] == '/' then ""
    else LastSegment(p[..|p| - 1]) + [p[|p| - 1]]
  }

  /** The last segment holds no '/', ends `p`, and is either all of `p` or preceded by a '/'. */
  lemma {:induction false} LastSegmentSuffix(p: string)
    ensures '/' !in LastSegment(p)
    ensures |LastSegment(p)| <= |p| && LastSegment(p) == p[|p| - |LastSegment(p)|..]
    ensures |LastSegment(p)| < |p| ==> p[|p| - |LastSegment(p)| - 1] == '/'
  {
    if p != [] && p[|p| - 1] != '/' {
      var q, ch := p[..|p| - 1], p[|p| - 1];
      LastSegmentSuffix(q);
      var rq := LastSegment(q);
      assert LastSegment(p) == rq + [ch];
      assert p == q + [ch];
      assert p[|p| - |rq| - 1..] == q[|q| - |rq|..] + [ch];
      if |rq| < |q| {
        assert p[|p| - |rq| - 2] == q[|q| - |rq| - 1];
      }
    }
  }

  /** `p` with every trailing '/' removed. */
  function TrimTrailingSlashes(p: string): string
  {
    if p != [] && p[|p| - 1] == '/' then TrimTrailingSlashes(p[..|p| - 1]) else p
  }

  /** Node's `path.basename(p)`: trailing separators are ignored. */
  function Basename(p: string): string
  {
    LastSegment(TrimTrailingSlashes(p))
  }

  /**
   * A base name holds no '/', and for a path that does not end in '/' it is
   * the last segment, the name `split('/').pop()` gives.
   */
  lemma BasenameSegment(p: string)
    ensures '/' !in Basename(p)
    ensures (p == [] || p[|p| - 1] != '/') ==> Basename(p) == LastSegment(p)
  {
    LastSegmentSuffix(TrimTrailingSlashes(p));
  }

  // ---------------------------------------------------------------------------
  // Concatenation of rendered blocks (the `+=` accumulator loops of the source)
  // ---------------------------------------------------------------------------

  function Flatten(blocks: seq<string>): string
  {
    if blocks == [] then "" else blocks[0] + Flatten(blocks[1..])
  }

  /** Blocks keep their order when the flattened blocks follow a fixed lead `a + b`. */
  lemma FlattenOrder(a: string, b: string, blocks: seq<string>, i: nat, j: nat)
    requires i < j <= |blocks|
    ensures |a + (b + Flatten(blocks[..i]))| + |blocks[i]| <= |a + (b + Flatten(blocks[..j]))|
  {
    FlattenLayout(blocks, i);
  }

  /** Blocks keep their order when the flattened blocks follow a fixed lead `a`. */
  lemma FlattenOrderAfter(a: string, blocks: seq<string>, i: nat, j: nat)
    requires i < j <= |blocks|
    ensures |a + Flatten(blocks[..i])| + |blocks[i]| <= |a + Flatten(blocks[..j])|
  {
    FlattenLayout(blocks, i);
  }

  /** Regrouping a four-part concatenation. */
  lemma Regroup(a: string, b: string, c: string, d: string)
    ensures a + (b + (c + d)) == a + (b + c) + d
  {
  }

  lemma {:induction false} FlattenAppend(a: seq<string>, b: seq<string>)
    ensures Flatten(a + b) == Flatten(a) + Flatten(b)
  {
    if a != [] {
      assert (a + b)[1..] == a[1..] + b;
      FlattenAppend(a[1..], b);
    } else {
      assert a + b == b;
    }
  }

  /** Flattening one more block after a lead appends that block. */
  lemma FlattenSnoc(lead: string, blocks: seq<string>, b: string)
    ensures lead + Flatten(blocks + [b]) == lead + Flatten(blocks) + b
  {
    FlattenAppend(blocks, [b]);
    assert Flatten([b]) == b + Flatten([]);
  }

  /**
   * Block `k` sits right after the blocks before it, and block `k` ends no
   * later than block `j` starts whenever k < j: the blocks appear in order.
   */
  lemma FlattenLayout(blocks: seq<string>, k: nat)
    requires k < |blocks|
    ensures Occurs(blocks[k], Flatten(blocks), |Flatten(blocks[..k])|)
    ensures Flatten(blocks[..k + 1]) == Flatten(blocks[..k]) + blocks[k]
    ensures |Flatten(blocks[..k])| + |blocks[k]| == |Flatten(blocks[..k + 1])|
    ensures forall j :: k < j <= |blocks| ==> |Flatten(blocks[..k + 1])| <= |Flatten(blocks[..j])|
  {
    var pre, post := blocks[..k], blocks[k + 1..];
    assert blocks == pre + [blocks[k]] + post;
    FlattenAppend(pre + [blocks[k]], post);
    FlattenAppend(pre, [blocks[k]]);
    assert Flatten([blocks[k]]) == blocks[k] + Flatten([]);
    OccursInConcat(Flatten(pre), blocks[k], Flatten(post));
    assert blocks[..k + 1] == pre + [blocks[k]];
    forall j | k < j <= |blocks|
      ensures |Flatten(blocks[..k + 1])| <= |Flatten(blocks[..j])|
    {
      assert blocks[..j] == blocks[..k + 1] + blocks[k + 1..j];
      FlattenAppend(blocks[..k + 1], blocks[k + 1..j]);
    }
  }
}
