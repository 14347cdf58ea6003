/** The JavaScript string built-ins the apps lean on: `trim`, `toLowerCase`,
    `includes`, `split` on one character, `replace` of a one-character
    pattern, `slice(0, n)`, and the default order used by `Array.prototype.sort`.
    Strings are sequences of code points. */
module Text {
  import opened Collections

  /** ECMAScript WhiteSpace and LineTerminator code points: exactly what
      `String.prototype.trim` and `Number(...)` strip. */
  predicate IsWhitespace(c: char)
  {
    || c == '\t' || c == '\U{B}' || c == '\U{C}' || c == ' ' || c == '\U{A0}'
    || c == '\U{FEFF}' || c == '\U{1680}' || ('\U{2000}' <= c <= '\U{200A}')
    || c == '\U{202F}' || c == '\U{205F}' || c == '\U{3000}'
    || c == '\n' || c == '\r' || c == '\U{2028}' || c == '\U{2029}'
  }

  predicate AllWhitespace(s: string)
  {
    forall i :: 0 <= i < |s| ==> IsWhitespace(s[i])
  }

  /** The index of the first character at or after `i` that is not
      whitespace, or `|s|`. */
  function SkipForward(s: string, i: nat): (j: nat)
    requires i <= |s|
    ensures i <= j <= |s|
    ensures forall k :: i <= k < j ==> IsWhitespace(s[k])
    ensures j == |s| || !IsWhitespace(s[j])
    decreases |s| - i
  {
    if i < |s| && IsWhitespace(s[i]) then SkipForward(s, i + 1) else i
  }

  /** The index just past the last character before `j` that is not
      whitespace, or 0. */
  function SkipBackward(s: string, j: nat): (i: nat)
    requires j <= |s|
    ensures i <= j
    ensures forall k :: i <= k < j ==> IsWhitespace(s[k])
    ensures i == 0 || !IsWhitespace(s[i - 1])
  {
    if j > 0 && IsWhitespace(s[j - 1]) then SkipBackward(s, j - 1) else j
  }

  /** `s.trimStart()`: the suffix left after dropping leading whitespace. */
  function TrimStart(s: string): (r: string)
    ensures |r| <= |s| && r == s[|s| - |r|..]
    ensures AllWhitespace(s[..|s| - |r|])
    ensures r == [] || !IsWhitespace(r[0])
  {
    var n := SkipForward(s, 0);
    assert forall k :: 0 <= k < n ==> s[..n][k] == s[k];
    s[n..]
  }

  /** `s.trimEnd()`: the prefix left after dropping trailing whitespace. */
  function TrimEnd(s: string): (r: string)
    ensures |r| <= |s| && r == s[..|r|]
    ensures AllWhitespace(s[|r|..])
    ensures r == [] || !IsWhitespace(r[|r| - 1])
  {
    var n := SkipBackward(s, |s|);
    assert forall k :: 0 <= k < |s| - n ==> s[n..][k] == s[n + k];
    s[..n]
  }

  /** `s.trim()`. */
  function Trim(s: string): string
  {
    TrimEnd(TrimStart(s))
  }

  /** `trim` cuts `s` into whitespace, a core that starts and ends with
      something else, and whitespace; the core is empty exactly when `s` is
      all whitespace. */
  lemma TrimShape(s: string)
    ensures var r := Trim(s); exists i :: (0 <= i <= |s| - |r| && r == s[i..i + |r|]
      && AllWhitespace(s[..i]) && AllWhitespace(s[i + |r|..]))
    ensures Trim(s) != [] ==> !IsWhitespace(Trim(s)[0]) && !IsWhitespace(Trim(s)[|Trim(s)| - 1])
    ensures Trim(s) == [] <==> AllWhitespace(s)
  {
    var i := |s| - |TrimStart(s)|;
    TrimCore(s, i);
    TrimMargins(s, i);
    TrimEnds(s);
    TrimEmpty(s);
  }

  /** The core neither starts nor ends with whitespace. */
  lemma TrimEnds(s: string)
    ensures Trim(s) != [] ==> !IsWhitespace(Trim(s)[0]) && !IsWhitespace(Trim(s)[|Trim(s)| - 1])
  {
    var t := TrimStart(s);
    var r := TrimEnd(t);
    if r != [] {
      assert r[0] == t[0];
    }
  }

  /** The core sits where `trimStart` stopped ... */
  lemma TrimCore(s: string, i: nat)
    requires i == |s| - |TrimStart(s)|
    ensures 0 <= i <= |s| - |Trim(s)| && Trim(s) == s[i..i + |Trim(s)|]
  {
    PrefixOfSuffix(s, i, TrimStart(s), Trim(s));
  }

  lemma PrefixOfSuffix(s: string, i: nat, t: string, r: string)
    requires i <= |s| && t == s[i..] && |r| <= |t| && r == t[..|r|]
    ensures i + |r| <= |s| && r == s[i..i + |r|]
  {
  }

  /** ... with only whitespace around it. */
  lemma TrimMargins(s: string, i: nat)
    requires i == |s| - |TrimStart(s)|
    ensures i + |Trim(s)| <= |s|
    ensures AllWhitespace(s[..i]) && AllWhitespace(s[i + |Trim(s)|..])
  {
    var t := TrimStart(s);
    assert t == s[i..];
    SliceOfSuffix(s, i, |TrimEnd(t)|);
    assert AllWhitespace(t[|TrimEnd(t)|..]);
  }

  lemma SliceOfSuffix(s: string, i: nat, n: nat)
    requires i + n <= |s|
    ensures s[i..][..n] == s[i..i + n] && s[i..][n..] == s[i + n..]
  {
  }

  /** Trimming leaves nothing exactly when everything is whitespace. */
  lemma TrimEmpty(s: string)
    ensures Trim(s) != [] ==> !IsWhitespace(Trim(s)[0])
    ensures Trim(s) == [] <==> AllWhitespace(s)
  {
    var t := TrimStart(s);
    var r := TrimEnd(t);
    var i := |s| - |t|;
    if r == [] {
      assert AllWhitespace(t[|r|..]);
      assert t == [];
      assert s[..i] == s;
    } else {
      assert t[0] == r[0];
      assert s[i] == t[0];
    }
  }

  /** The trimmed string followed by the trailing whitespace is what
      `trimStart` leaves: `parseFloat` sees exactly that. */
  lemma TrimStartSplit(s: string)
    ensures TrimStart(s) == Trim(s) + TrimStart(s)[|Trim(s)|..]
    ensures AllWhitespace(TrimStart(s)[|Trim(s)|..])
  {
    TrimEndSplit(TrimStart(s));
  }

  /** What `trimEnd` keeps, followed by what it drops, is the string. */
  lemma TrimEndSplit(t: string)
    ensures t == TrimEnd(t) + t[|TrimEnd(t)|..]
    ensures AllWhitespace(t[|TrimEnd(t)|..])
  {
    var n := |TrimEnd(t)|;
    assert TrimEnd(t) == t[..n];
    assert t == t[..n] + t[n..];
  }

  /** ASCII `toLowerCase` of one character. */
  function LowerChar(c: char): char
  {
    if 'A' <= c <= 'Z' then (c as int + 32) as char else c
  }

  /** `s.toLowerCase()` restricted to the ASCII letters. */
  function ToLower(s: string): (r: string)
    ensures |r| == |s|
    ensures forall i :: 0 <= i < |s| ==> r[i] == LowerChar(s[i])
  {
    seq(|s|, i requires 0 <= i < |s| => LowerChar(s[i]))
  }

  /** Lower-casing twice changes nothing more. */
  lemma ToLowerIdempotent(s: string)
    ensures ToLower(ToLower(s)) == ToLower(s)
  {
  }

  /** `sub` occurs in `s` at position `i`. */
  predicate OccursAt(s: string, sub: string, i: nat)
  {
    i + |sub| <= |s| && s[i..i + |sub|] == sub
  }

  /** `s.includes(sub)`. */
  function Contains(s: string, sub: string): (r: bool)
    ensures r <==> exists i: nat :: OccursAt(s, sub, i)
  {
    if |sub| <= |s| && s[..|sub|] == sub then
      assert OccursAt(s, sub, 0);
      true
    else if |s| <= |sub| then
      assert forall i: nat :: !OccursAt(s, sub, i) by {
        forall i: nat ensures !OccursAt(s, sub, i) {
          if i + |sub| <= |s| {
            assert i == 0;
          }
        }
      }
      false
    else
      var r := Contains(s[1..], sub);
      assert r ==> exists i: nat :: OccursAt(s, sub, i) by {
        if r {
          var i: nat :| OccursAt(s[1..], sub, i);
          assert s[i + 1..i + 1 + |sub|] == s[1..][i..i + |sub|];
          assert OccursAt(s, sub, i + 1);
        }
      }
      assert (exists i: nat :: OccursAt(s, sub, i)) ==> r by {
        if exists i: nat :: OccursAt(s, sub, i) {
          var i: nat :| OccursAt(s, sub, i);
          assert i != 0;
          assert s[1..][i - 1..i - 1 + |sub|] == s[i..i + |sub|];
          assert OccursAt(s[1..], sub, i - 1);
        }
      }
      r
  }

  /** Every string contains the empty string. */
  lemma ContainsEmpty(s: string)
    ensures Contains(s, "")
  {
    assert OccursAt(s, "", 0);
  }

  /** `s.slice(0, n)`. */
  function Prefix(s: string, n: nat): (r: string)
    ensures |r| == if n < |s| then n else |s|
    ensures r == s[..|r|]
  {
    if n < |s| then s[..n] else s
  }

  /** The index of the first `c` in `s`, if any. */
  function IndexOf(s: string, c: char): (r: Option<nat>)
    ensures r.None? <==> c !in s
    ensures r.Some? ==> r.value < |s| && s[r.value] == c && c !in s[..r.value]
  {
    if s == [] then None
    else if s[0] == c then Some(0)
    else
      var r := IndexOf(s[1..], c);
      if r.None? then None else Some(r.value + 1)
  }

  datatype Option<T> = None | Some(value: T)

  /** `s.replace(c, '')` with a one-character string pattern: only the first
      occurrence goes. */
  function RemoveFirst(s: string, c: char): (r: string)
    ensures c !in s ==> r == s
    ensures c in s ==> |r| == |s| - 1 && exists k :: (0 <= k < |s| && s[k] == c && c !in s[..k]
      && r == s[..k] + s[k + 1..])
  {
    match IndexOf(s, c)
    case None => s
    case Some(k) => s[..k] + s[k + 1..]
  }

  /** `parts.join(sep)`. */
  function Join(parts: seq<string>, sep: char): string
    requires |parts| > 0
  {
    if |parts| == 1 then parts[0] else parts[0] + [sep] + Join(parts[1..], sep)
  }

  /** `s.split(sep)` for a one-character separator: the pieces between the
      separators, empty ones included. */
  function Split(s: string, sep: char): (parts: seq<string>)
    ensures |parts| > 0
    ensures forall i :: 0 <= i < |parts| ==> sep !in parts[i]
    ensures Join(parts, sep) == s
  {
    match IndexOf(s, sep)
    case None => [s]
    case Some(k) =>
      var rest := Split(s[k + 1..], sep);
      var parts := [s[..k]] + rest;
      assert parts[1..] == rest;
      assert s == s[..k] + [sep] + s[k + 1..];
      parts
  }

  /** Joining pieces that do not contain a character with that character,
      and splitting the result on it again, gives back the pieces. */
  lemma {:induction false} SplitJoin(parts: seq<string>, sep: char)
    requires |parts| > 0
    requires forall i :: 0 <= i < |parts| ==> sep !in parts[i]
    ensures Split(Join(parts, sep), sep) == parts
  {
    var s := Join(parts, sep);
    if |parts| == 1 {
      assert IndexOf(s, sep).None?;
    } else {
      var tail := Join(parts[1..], sep);
      assert s == parts[0] + [sep] + tail;
      assert sep !in parts[0];
      var k := |parts[0]|;
      assert s[k] == sep && s[..k] == parts[0];
      assert IndexOf(s, sep) == Some(k);
      assert s[k + 1..] == tail;
      SplitJoin(parts[1..], sep);
    }
  }

  /** The order `Array.prototype.sort` uses by default: code unit by code
      unit, a proper prefix first. */
  predicate LexLeq(a: string, b: string)
  {
    a == [] || (b != [] && (a[0] < b[0] || (a[0] == b[0] && LexLeq(a[1..], b[1..]))))
  }

  lemma LexLeqTotal(a: string, b: string)
    ensures LexLeq(a, b) || LexLeq(b, a)
  {
  }

  lemma LexLeqAntisymmetric(a: string, b: string)
    requires LexLeq(a, b) && LexLeq(b, a)
    ensures a == b
  {
    if a != [] && b != [] {
      LexLeqAntisymmetric(a[1..], b[1..]);
      assert a == [a[0]] + a[1..] && b == [b[0]] + b[1..];
    }
  }

  lemma LexLeqTransitive(a: string, b: string, c: string)
    requires LexLeq(a, b) && LexLeq(b, c)
    ensures LexLeq(a, c)
  {
  }

  predicate Sorted(s: seq<string>)
  {
    forall i, j :: 0 <= i < j < |s| ==> LexLeq(s[i], s[j])
  }

  /** Inserts `x` into the sorted `s` before the first element above it. */
  function Insert(x: string, s: seq<string>): (r: seq<string>)
    requires Sorted(s)
    ensures Sorted(r)
    ensures multiset(r) == multiset(s) + multiset{x}
  {
    if s == [] || LexLeq(x, s[0]) then
      InsertHere(x, s);
      [x] + s
    else
      LexLeqTotal(x, s[0]);
      var t := Insert(x, s[1..]);
      InsertLater(x, s, t);
      [s[0]] + t
  }

  /** An element not above the head of a sorted list can go in front. */
  lemma InsertHere(x: string, s: seq<string>)
    requires Sorted(s) && (s == [] || LexLeq(x, s[0]))
    ensures Sorted([x] + s)
  {
    forall j | 0 <= j < |s| ensures LexLeq(x, s[j]) {
      if j > 0 {
        LexLeqTransitive(x, s[0], s[j]);
      }
    }
    SortedCons(x, s);
  }

  /** The head of a sorted list stays in front of the list's tail with
      an element above it inserted. */
  lemma InsertLater(x: string, s: seq<string>, t: seq<string>)
    requires Sorted(s) && s != [] && LexLeq(s[0], x)
    requires Sorted(t) && multiset(t) == multiset(s[1..]) + multiset{x}
    ensures Sorted([s[0]] + t)
    ensures multiset([s[0]] + t) == multiset(s) + multiset{x}
  {
    assert s == [s[0]] + s[1..];
    forall j | 0 <= j < |t| ensures LexLeq(s[0], t[j]) {
      assert t[j] in multiset(t);
      if t[j] != x {
        assert t[j] in multiset(s[1..]);
        var k :| 0 <= k < |s[1..]| && s[1..][k] == t[j];
        assert s[k + 1] == t[j];
      }
    }
    SortedCons(s[0], t);
  }

  lemma SortedCons(h: string, t: seq<string>)
    requires Sorted(t) && forall j :: 0 <= j < |t| ==> LexLeq(h, t[j])
    ensures Sorted([h] + t)
  {
    var r := [h] + t;
    forall i, j | 0 <= i < j < |r| ensures LexLeq(r[i], r[j]) {
      assert r[j] == t[j - 1];
      if i > 0 {
        assert r[i] == t[i - 1];
      }
    }
  }

  /** `keys.sort()`: the same strings, ascending. */
  function Sort(s: seq<string>): (r: seq<string>)
    ensures Sorted(r)
    ensures multiset(r) == multiset(s)
  {
    if s == [] then [] else
      assert s == s[..|s| - 1] + [s[|s| - 1]];
      Insert(s[|s| - 1], Sort(s[..|s| - 1]))
  }

  /** In a sorted sequence without repetitions every element is strictly
      below every later one. */
  lemma SortedDistinctStrict(s: seq<string>, i: nat, j: nat)
    requires Sorted(s) && Distinct(s) && i < j < |s|
    ensures LexLeq(s[i], s[j]) && !LexLeq(s[j], s[i])
  {
    if LexLeq(s[j], s[i]) {
      LexLeqAntisymmetric(s[i], s[j]);
    }
  }

  /** In a sorted list of distinct strings, an element outside a suffix
      sorts strictly before every element of the suffix. */
  lemma SuffixAfter(sorted: seq<string>, off: nat, k: string, x: string)
    requires Sorted(sorted) && Distinct(sorted) && off <= |sorted|
    requires k in sorted && k !in sorted[off..] && x in sorted[off..]
    ensures LexLeq(k, x) && k != x
  {
    var suffix := sorted[off..];
    var i := FirstIndex(sorted, k);
    var j := FirstIndex(suffix, x);
    assert sorted[off + j] == x;
    assert forall m :: off <= m < |sorted| ==> sorted[m] == suffix[m - off];
    SortedDistinctStrict(sorted, i, off + j);
  }

  /** Sorting keeps the elements and so keeps them distinct. */
  lemma SortDistinct(s: seq<string>)
    requires Distinct(s)
    ensures Distinct(Sort(s))
    ensures forall x :: x in Sort(s) <==> x in s
  {
    var r := Sort(s);
    forall x ensures x in r <==> x in s {
      assert x in r <==> x in multiset(r);
    }
    MultisetDistinct(s, r);
  }

  /** A permutation of a sequence without repetitions has none. */
  lemma MultisetDistinct(s: seq<string>, r: seq<string>)
    requires Distinct(s) && multiset(r) == multiset(s)
    ensures Distinct(r)
  {
    DistinctCounts(s);
    CountsDistinct(r);
  }

  /** A sequence in which every element is counted at most once has no
      repetitions. */
  lemma {:induction false} CountsDistinct(r: seq<string>)
    requires forall x :: multiset(r)[x] <= 1
    ensures Distinct(r)
  {
    if r != [] {
      var rest := r[1..];
      assert r == [r[0]] + rest;
      assert forall x :: multiset(rest)[x] <= multiset(r)[x];
      CountsDistinct(rest);
      assert multiset(rest)[r[0]] == 0;
      assert forall k :: 0 <= k < |rest| ==> rest[k] in multiset(rest);
    }
  }

  /** In a sequence without repetitions each element is counted once. */
  lemma {:induction false} DistinctCounts(s: seq<string>)
    requires Distinct(s)
    ensures forall x :: multiset(s)[x] <= 1
  {
    if s != [] {
      DistinctCounts(s[1..]);
      assert s == [s[0]] + s[1..];
      assert s[0] !in s[1..];
    }
  }
}
