/**
 * String helpers the core files rely on: Guava's `Splitter.on(':').trimResults()`,
 * `String.join`, `String.contains`, `String.compareTo` and the stable sort of
 * `Stream.sorted`.
 */
module Text {

  /** Number of occurrences of `c` in `s`. */
  function CountChar(s: string, c: char): nat
  {
    if s == [] then 0 else (if s[0] == c then 1 else 0) + CountChar(s[1..], c)
  }

  /** `String.join(sep, xs)`: the elements with `sep` between each two, starting with the first and ending with the last. */
  function Join(xs: seq<string>, sep: string): (r: string)
    ensures xs == [] ==> r == ""
    ensures xs != [] ==> xs[0] <= r
  {
    if |xs| == 0 then ""
    else if |xs| == 1 then xs[0]
    else xs[0] + sep + Join(xs[1..], sep)
  }

  /**
   * Splitting on a single separator character, keeping empty parts, as
   * Guava's `Splitter.on(char)` does: "a::b" has three parts, "" has one.
   */
  function Split(s: string, sep: char): (parts: seq<string>)
    ensures |parts| == CountChar(s, sep) + 1
    ensures forall i :: 0 <= i < |parts| ==> sep !in parts[i]
    ensures Join(parts, [sep]) == s
  {
    if s == [] then [""]
    else
      var rest := Split(s[1..], sep);
      if s[0] == sep then [""] + rest
      else [[s[0]] + rest[0]] + rest[1..]
  }

  /** Splitting the joined parts gives the parts back: `Split` inverts `Join`. */
  lemma {:induction false} SplitJoin(parts: seq<string>, sep: char)
    requires |parts| >= 1
    requires forall i :: 0 <= i < |parts| ==> sep !in parts[i]
    ensures Split(Join(parts, [sep]), sep) == parts
  {
    if |parts| == 1 {
      SplitNoSeparator(parts[0], sep);
    } else {
      var tail := Join(parts[1..], [sep]);
      SplitJoin(parts[1..], sep);
      assert Split(tail, sep) == parts[1..];
      assert Join(parts, [sep]) == parts[0] + ([sep] + tail);
      assert ([sep] + tail)[0] == sep;
      assert ([sep] + tail)[1..] == tail;
      assert Split([sep] + tail, sep) == [""] + parts[1..];
      SplitPrefix(parts[0], [sep] + tail, sep);
      assert Split(Join(parts, [sep]), sep) == [parts[0] + ""] + parts[1..];
      assert parts[0] + "" == parts[0];
      assert [parts[0]] + parts[1..] == parts;
    }
  }

  /** A string without the separator splits into itself. */
  lemma {:induction false} SplitNoSeparator(s: string, sep: char)
    requires sep !in s
    ensures Split(s, sep) == [s]
  {
    if s != [] {
      SplitNoSeparator(s[1..], sep);
    }
  }

  /** A separator-free prefix extends the first part of what follows it. */
  lemma {:induction false} SplitPrefix(p: string, s: string, sep: char)
    requires sep !in p
    ensures Split(p + s, sep) == [p + Split(s, sep)[0]] + Split(s, sep)[1..]
  {
    if p != [] {
      SplitPrefix(p[1..], s, sep);
      assert p[0] != sep;
      assert (p + s)[0] == p[0];
      assert (p + s)[1..] == p[1..] + s;
      var rest := Split(p[1..] + s, sep);
      assert rest == [p[1..] + Split(s, sep)[0]] + Split(s, sep)[1..];
      assert rest[0] == p[1..] + Split(s, sep)[0];
      assert rest[1..] == Split(s, sep)[1..];
      assert Split(p + s, sep) == [[p[0]] + rest[0]] + rest[1..];
      assert [p[0]] + (p[1..] + Split(s, sep)[0]) == p + Split(s, sep)[0];
    } else {
      assert p + s == s;
      assert p + Split(s, sep)[0] == Split(s, sep)[0];
      assert Split(s, sep) == [Split(s, sep)[0]] + Split(s, sep)[1..];
    }
  }

  /** The characters Guava's `CharMatcher.whitespace()` matches (used by `trimResults`). */
  predicate IsWhitespace(c: char)
  {
    var n := c as int;
    (9 <= n <= 13) || n == 0x20 || n == 0x85 || n == 0xA0 || n == 0x1680
    || (0x2000 <= n <= 0x200A) || n == 0x2028 || n == 0x2029 || n == 0x202F
    || n == 0x205F || n == 0x3000
  }

  /** Drops leading whitespace. */
  function TrimStart(s: string): (r: string)
    ensures |r| <= |s| && r == s[|s| - |r|..]
    ensures forall k :: 0 <= k < |s| - |r| ==> IsWhitespace(s[k])
    ensures |r| > 0 ==> !IsWhitespace(r[0])
  {
    if |s| > 0 && IsWhitespace(s[0]) then TrimStart(s[1..]) else s
  }

  /** Drops trailing whitespace. */
  function TrimEnd(s: string): (r: string)
    ensures |r| <= |s| && r == s[..|r|]
    ensures forall k :: |r| <= k < |s| ==> IsWhitespace(s[k])
    ensures |r| > 0 ==> !IsWhitespace(r[|r| - 1])
  {
    if |s| > 0 && IsWhitespace(s[|s| - 1]) then TrimEnd(s[..|s| - 1]) else s
  }

  /** Guava's `trimFrom`: leading and trailing whitespace removed, the middle kept. */
  function Trim(s: string): (r: string)
    ensures |r| > 0 ==> !IsWhitespace(r[0]) && !IsWhitespace(r[|r| - 1])
    ensures r == [] <==> forall k :: 0 <= k < |s| ==> IsWhitespace(s[k])
    ensures exists a, b :: (0 <= a <= b <= |s| && r == s[a..b]
      && (forall k :: 0 <= k < a ==> IsWhitespace(s[k])) && (forall k :: b <= k < |s| ==> IsWhitespace(s[k])))
  {
    var t := TrimStart(s);
    var r := TrimEnd(t);
    TrimSlice(s, t, r);
    r
  }

  /** `r`, the end-trimmed `t`, which is the start-trimmed `s`, is a slice of `s` between whitespace. */
  lemma TrimSlice(s: string, t: string, r: string)
    requires |t| <= |s| && t == s[|s| - |t|..] && forall k :: 0 <= k < |s| - |t| ==> IsWhitespace(s[k])
    requires |t| > 0 ==> !IsWhitespace(t[0])
    requires |r| <= |t| && r == t[..|r|] && forall k :: |r| <= k < |t| ==> IsWhitespace(t[k])
    requires |r| > 0 ==> !IsWhitespace(r[|r| - 1])
    ensures |r| > 0 ==> !IsWhitespace(r[0]) && !IsWhitespace(r[|r| - 1])
    ensures r == [] <==> forall k :: 0 <= k < |s| ==> IsWhitespace(s[k])
    ensures exists a, b :: (0 <= a <= b <= |s| && r == s[a..b]
      && (forall k :: 0 <= k < a ==> IsWhitespace(s[k])) && (forall k :: b <= k < |s| ==> IsWhitespace(s[k])))
  {
    var a := |s| - |t|;
    var b := a + |r|;
    assert r == [] ==> t == [];
    assert s[a..b] == t[..|r|];
    forall k | b <= k < |s| ensures IsWhitespace(s[k]) {
      assert s[k] == t[k - a];
    }
  }

  /** A string with no whitespace at either end is its own trim. */
  lemma TrimFixed(s: string)
    requires |s| > 0 ==> !IsWhitespace(s[0]) && !IsWhitespace(s[|s| - 1])
    ensures Trim(s) == s
  {
  }

  /** Trimming twice is trimming once. */
  lemma TrimIdempotent(s: string)
    ensures Trim(Trim(s)) == Trim(s)
  {
    TrimFixed(Trim(s));
  }

  /** The parts of `Splitter.on(sep).trimResults().splitToList(s)`. */
  function SplitTrim(s: string, sep: char): (parts: seq<string>)
    ensures |parts| == CountChar(s, sep) + 1
    ensures forall i :: 0 <= i < |parts| ==> parts[i] == Trim(Split(s, sep)[i])
  {
    var raw := Split(s, sep);
    seq(|raw|, i requires 0 <= i < |raw| => Trim(raw[i]))
  }

  /** `t` occurs in `s` starting at index `i`. */
  predicate OccursAt(s: string, t: string, i: int)
  {
    0 <= i && i + |t| <= |s| && s[i..i + |t|] == t
  }

  /** `s.contains(t)`. */
  function Contains(s: string, t: string): (r: bool)
    ensures r <==> exists i :: OccursAt(s, t, i)
  {
    if t <= s then
      assert OccursAt(s, t, 0);
      true
    else if s == [] then
      false
    else
      var r := Contains(s[1..], t);
      assert r ==> exists i :: OccursAt(s, t, i) by {
        if r {
          var i :| OccursAt(s[1..], t, i);
          assert s[i + 1..i + 1 + |t|] == s[1..][i..i + |t|];
          assert OccursAt(s, t, i + 1);
        }
      }
      assert (exists i :: OccursAt(s, t, i)) ==> r by {
        if exists i :: OccursAt(s, t, i) {
          var i :| OccursAt(s, t, i);
          assert i != 0;
          assert s[1..][i - 1..i - 1 + |t|] == s[i..i + |t|];
          assert OccursAt(s[1..], t, i - 1);
        }
      }
      r
  }

  /** `a.compareTo(b) <= 0` for Java strings, over code points: a prefix never compares greater. */
  predicate LexLe(a: string, b: string): (r: bool)
    ensures a <= b ==> r
  {
    |a| == 0 || (|b| > 0 && (a[0] < b[0] || (a[0] == b[0] && LexLe(a[1..], b[1..]))))
  }

  /**
   * `compareTo` decides at the first index where the strings differ, and
   * otherwise by length: `a` is at most `b` exactly when it is a prefix of
   * `b` or has the smaller character at the first difference.
   */
  lemma {:induction false} LexLeFirstDifference(a: string, b: string)
    ensures LexLe(a, b) <==> a <= b || exists k :: 0 <= k < |a| && k < |b| && a[..k] == b[..k] && a[k] < b[k]
  {
    if |a| > 0 && |b| > 0 {
      if a[0] < b[0] {
        assert a[..0] == b[..0];
      } else if a[0] == b[0] {
        LexLeFirstDifference(a[1..], b[1..]);
        if exists k :: 0 <= k < |a[1..]| && k < |b[1..]| && a[1..][..k] == b[1..][..k] && a[1..][k] < b[1..][k] {
          var k :| 0 <= k < |a[1..]| && k < |b[1..]| && a[1..][..k] == b[1..][..k] && a[1..][k] < b[1..][k];
          assert a[..k + 1] == [a[0]] + a[1..][..k];
          assert b[..k + 1] == [b[0]] + b[1..][..k];
        }
        if exists k :: 0 <= k < |a| && k < |b| && a[..k] == b[..k] && a[k] < b[k] {
          var k :| 0 <= k < |a| && k < |b| && a[..k] == b[..k] && a[k] < b[k];
          assert k > 0;
          assert a[1..][..k - 1] == a[..k][1..];
          assert b[1..][..k - 1] == b[..k][1..];
        }
        if a[1..] <= b[1..] {
          assert a == [a[0]] + a[1..];
          assert b == [b[0]] + b[1..];
        }
        if a <= b {
          assert a[1..] == b[..|a|][1..];
        }
      } else {
        if exists k :: 0 <= k < |a| && k < |b| && a[..k] == b[..k] && a[k] < b[k] {
          var k :| 0 <= k < |a| && k < |b| && a[..k] == b[..k] && a[k] < b[k];
          if k > 0 {
            assert a[..k][0] == b[..k][0];
          }
        }
      }
    }
  }

  lemma {:induction false} LexLeTotal(a: string, b: string)
    ensures LexLe(a, b) || LexLe(b, a)
  {
    if |a| > 0 && |b| > 0 && a[0] == b[0] {
      LexLeTotal(a[1..], b[1..]);
    }
  }

  lemma {:induction false} LexLeTransitive(a: string, b: string, c: string)
    requires LexLe(a, b) && LexLe(b, c)
    ensures LexLe(a, c)
  {
    if |a| > 0 && a[0] == b[0] && b[0] == c[0] {
      LexLeTransitive(a[1..], b[1..], c[1..]);
    }
  }

  lemma {:induction false} LexLeAntisymmetric(a: string, b: string)
    requires LexLe(a, b) && LexLe(b, a)
    ensures a == b
  {
    if |a| > 0 {
      LexLeAntisymmetric(a[1..], b[1..]);
      assert a == [a[0]] + a[1..];
      assert b == [b[0]] + b[1..];
    }
  }

  lemma {:induction false} LexLeReflexive(a: string)
    ensures LexLe(a, a)
  {
    if |a| > 0 {
      LexLeReflexive(a[1..]);
    }
  }
  /** The comparators the core sorts strings with. */
  datatype Order = ByLength | Lexicographic

  predicate Le(o: Order, a: string, b: string)
  {
    match o
    case ByLength => |a| <= |b|
    case Lexicographic => LexLe(a, b)
  }

  lemma LeTotal(o: Order, a: string, b: string)
    ensures Le(o, a, b) || Le(o, b, a)
  {
    if o == Lexicographic { LexLeTotal(a, b); }
  }

  lemma LeTransitive(o: Order, a: string, b: string, c: string)
    requires Le(o, a, b) && Le(o, b, c)
    ensures Le(o, a, c)
  {
    if o == Lexicographic { LexLeTransitive(a, b, c); }
  }

  predicate Sorted(o: Order, xs: seq<string>)
  {
    forall i, j :: 0 <= i < j < |xs| ==> Le(o, xs[i], xs[j])
  }

  /** Inserts `x` before the first element it does not exceed (so equal elements keep their order). */
  function Insert(o: Order, x: string, ys: seq<string>): (r: seq<string>)
    requires Sorted(o, ys)
    ensures multiset(r) == multiset(ys) + multiset{x}
    ensures Sorted(o, r)
  {
    if ys == [] then [x]
    else if Le(o, x, ys[0]) then
      assert forall j :: 0 <= j < |ys| ==> Le(o, x, ys[j]) by {
        forall j | 0 <= j < |ys| ensures Le(o, x, ys[j]) {
          if j > 0 { LeTransitive(o, x, ys[0], ys[j]); }
        }
      }
      [x] + ys
    else
      LeTotal(o, x, ys[0]);
      var rest := Insert(o, x, ys[1..]);
      assert ys == [ys[0]] + ys[1..];
      assert forall k :: 0 <= k < |rest| ==> Le(o, ys[0], rest[k]) by {
        forall k | 0 <= k < |rest| ensures Le(o, ys[0], rest[k]) {
          assert rest[k] in multiset(rest);
          assert rest[k] == x || rest[k] in multiset(ys[1..]);
          if rest[k] != x {
            var j :| 0 <= j < |ys[1..]| && ys[1..][j] == rest[k];
            assert ys[j + 1] == rest[k];
          }
        }
      }
      [ys[0]] + rest
  }

  /** The stable sort of `Stream.sorted`, as an insertion sort. */
  function Sort(o: Order, xs: seq<string>): (r: seq<string>)
    ensures multiset(r) == multiset(xs)
    ensures Sorted(o, r)
  {
    if xs == [] then []
    else
      assert xs == [xs[0]] + xs[1..];
      Insert(o, xs[0], Sort(o, xs[1..]))
  }

  /** The strings of `xs` that have length `n`, in the order of `xs`. */
  function WithLength(xs: seq<string>, n: nat): (r: seq<string>)
    ensures forall i :: 0 <= i < |r| ==> |r[i]| == n
  {
    if xs == [] then [] else (if |xs[0]| == n then [xs[0]] else []) + WithLength(xs[1..], n)
  }

  lemma WithLengthCons(y: string, ys: seq<string>, n: nat)
    ensures WithLength([y] + ys, n) == (if |y| == n then [y] else []) + WithLength(ys, n)
  {
    assert ([y] + ys)[1..] == ys;
  }

  lemma SortedTail(ys: seq<string>)
    requires Sorted(ByLength, ys) && ys != []
    ensures Sorted(ByLength, ys[1..])
  {
    forall i, j | 0 <= i < j < |ys[1..]| ensures Le(ByLength, ys[1..][i], ys[1..][j]) {
      assert ys[1..][i] == ys[i + 1] && ys[1..][j] == ys[j + 1];
    }
  }

  /** Inserting by length puts `x` after every shorter string and before every other string of its length. */
  lemma {:induction false} InsertStable(x: string, ys: seq<string>, n: nat)
    requires Sorted(ByLength, ys)
    ensures WithLength(Insert(ByLength, x, ys), n) == (if |x| == n then [x] else []) + WithLength(ys, n)
  {
    if ys == [] {
      WithLengthCons(x, [], n);
      assert [x] + [] == [x];
    } else if |x| <= |ys[0]| {
      WithLengthCons(x, ys, n);
    } else {
      SortedTail(ys);
      var rest := Insert(ByLength, x, ys[1..]);
      InsertStable(x, ys[1..], n);
      var xPart: seq<string> := if |x| == n then [x] else [];
      var yPart: seq<string> := if |ys[0]| == n then [ys[0]] else [];
      var tail := WithLength(ys[1..], n);
      assert WithLength(rest, n) == xPart + tail;
      assert Insert(ByLength, x, ys) == [ys[0]] + rest;
      WithLengthCons(ys[0], rest, n);
      WithLengthCons(ys[0], ys[1..], n);
      assert ys == [ys[0]] + ys[1..];
      assert WithLength(ys, n) == yPart + tail;
      assert xPart == [] || yPart == [];
      assert yPart + (xPart + tail) == xPart + (yPart + tail);
    }
  }

  /**
   * The sort by length is stable: for every length, the strings of that
   * length come out in the order they came in.
   */
  lemma {:induction false} SortStable(xs: seq<string>, n: nat)
    ensures WithLength(Sort(ByLength, xs), n) == WithLength(xs, n)
  {
    if xs != [] {
      SortStable(xs[1..], n);
      InsertStable(xs[0], Sort(ByLength, xs[1..]), n);
    }
  }

  /** Two lexicographically sorted non-empty arrangements of the same strings start alike. */
  lemma SortedSameHead(a: seq<string>, b: seq<string>)
    requires Sorted(Lexicographic, a) && Sorted(Lexicographic, b)
    requires multiset(a) == multiset(b) && a != [] && b != []
    ensures a[0] == b[0]
  {
    assert a[0] in multiset(b);
    var j :| 0 <= j < |b| && b[j] == a[0];
    assert b[0] in multiset(a);
    var i :| 0 <= i < |a| && a[i] == b[0];
    assert LexLe(b[0], a[0]) by {
      if j > 0 { assert Le(Lexicographic, b[0], b[j]); } else { LexLeReflexive(a[0]); }
    }
    assert LexLe(a[0], b[0]) by {
      if i > 0 { assert Le(Lexicographic, a[0], a[i]); } else { LexLeReflexive(b[0]); }
    }
    LexLeAntisymmetric(a[0], b[0]);
  }

  /** Two lexicographically sorted arrangements of the same strings are the same sequence. */
  lemma {:induction false} SortedUnique(a: seq<string>, b: seq<string>)
    requires Sorted(Lexicographic, a) && Sorted(Lexicographic, b)
    requires multiset(a) == multiset(b)
    ensures a == b
  {
    assert |a| == |multiset(a)| == |multiset(b)| == |b|;
    if a != [] {
      SortedSameHead(a, b);
      assert a == [a[0]] + a[1..];
      assert b == [b[0]] + b[1..];
      assert multiset(a[1..]) == multiset(a) - multiset{a[0]};
      assert multiset(b[1..]) == multiset(b) - multiset{b[0]};
      SortedUnique(a[1..], b[1..]);
    }
  }

  /** Sorting lexicographically forgets the order of the input: only its elements matter. */
  lemma SortForgetsOrder(xs: seq<string>, ys: seq<string>)
    requires multiset(xs) == multiset(ys)
    ensures Sort(Lexicographic, xs) == Sort(Lexicographic, ys)
  {
    SortedUnique(Sort(Lexicographic, xs), Sort(Lexicographic, ys));
  }
}
