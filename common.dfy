/** Small building blocks shared by the whole model: an Option type, the
    string operations the JavaScript and Python code relies on (trim, case
    mapping, substring search, split/join on one character), sums over
    sequences, filtering and a stable sort by an integer key. */
module Common {

  datatype Option<T> = None | Some(value: T) {
    function GetOr(default: T): T {
      if Some? then value else default
    }
  }

  // ---------------------------------------------------------------------
  // Characters
  // ---------------------------------------------------------------------

  predicate IsDigit(c: char) { '0' <= c <= '9' }

  /** The white space that `String.prototype.trim` and Python's `strip`
      both remove, restricted to the ASCII characters: space, tab, line
      feed, vertical tab, form feed and carriage return. */
  predicate IsSpace(c: char) {
    c == ' ' || c == '\t' || c == '\n' || c == '\U{B}' || c == '\U{C}' || c == '\r'
  }

  function LowerChar(c: char): char {
    if 'A' <= c <= 'Z' then (c as int - 'A' as int + 'a' as int) as char else c
  }

  function UpperChar(c: char): char {
    if 'a' <= c <= 'z' then (c as int - 'a' as int + 'A' as int) as char else c
  }

  function Lower(s: string): (r: string)
    ensures |r| == |s|
  {
    seq(|s|, i requires 0 <= i < |s| => LowerChar(s[i]))
  }

  function Upper(s: string): (r: string)
    ensures |r| == |s|
  {
    seq(|s|, i requires 0 <= i < |s| => UpperChar(s[i]))
  }

  /** Upper-casing twice is upper-casing once. */
  lemma UpperIdempotent(s: string)
    ensures Upper(Upper(s)) == Upper(s)
  {
    var u := Upper(s);
    forall i | 0 <= i < |s|
      ensures Upper(u)[i] == u[i]
    {
      assert u[i] == UpperChar(s[i]);
    }
  }

  /** Upper-casing leaves white space alone and makes nothing white space. */
  lemma UpperKeepsSpace(c: char)
    ensures IsSpace(UpperChar(c)) <==> IsSpace(c)
  {
  }

  // ---------------------------------------------------------------------
  // Trimming
  // ---------------------------------------------------------------------

  function TrimStart(s: string): (r: string)
    ensures |r| <= |s| && r == s[|s| - |r|..]
    ensures r == [] || !IsSpace(r[0])
  {
    if |s| > 0 && IsSpace(s[0]) then TrimStart(s[1..]) else s
  }

  function TrimEnd(s: string): (r: string)
    ensures |r| <= |s| && r == s[..|r|]
    ensures r == [] || !IsSpace(r[|r| - 1])
  {
    if |s| > 0 && IsSpace(s[|s| - 1]) then TrimEnd(s[..|s| - 1]) else s
  }

  /** `trim()`: drops the white space at both ends. */
  function Trim(s: string): (r: string)
    ensures |r| <= |s|
    ensures r == [] || (!IsSpace(r[0]) && !IsSpace(r[|r| - 1]))
  {
    TrimEnds(s);
    TrimEnd(TrimStart(s))
  }

  lemma TrimEnds(s: string)
    ensures var r := TrimEnd(TrimStart(s));
      r == [] || (!IsSpace(r[0]) && !IsSpace(r[|r| - 1]))
  {
    var t := TrimStart(s);
    var r := TrimEnd(t);
    if r != [] {
      assert r[0] == t[..|r|][0] == t[0];
    }
  }

  /** A trimmed text is its own trim. */
  lemma TrimTwice(s: string)
    ensures Trim(Trim(s)) == Trim(s)
  {
    var t := Trim(s);
    if t != [] {
      TrimNoSpace(t);
    } else {
      assert Trim(t) == [];
    }
  }

  /** A string made of white space only trims to the empty string. */
  lemma {:induction false} TrimAllSpace(s: string)
    requires forall i :: 0 <= i < |s| ==> IsSpace(s[i])
    ensures Trim(s) == []
  {
    if |s| > 0 {
      TrimAllSpace(s[1..]);
    }
  }

  // ---------------------------------------------------------------------
  // Substrings, prefixes
  // ---------------------------------------------------------------------

  /** `s.includes(t)` */
  predicate Contains(s: string, t: string)
  {
    StartsWith(s, t) || (s != [] && Contains(s[1..], t))
  }

  predicate StartsWith(s: string, t: string) {
    |t| <= |s| && s[..|t|] == t
  }

  /** `Contains` holds exactly when `t` occurs at some position of `s`. */
  lemma {:induction false} ContainsAt(s: string, t: string, k: nat)
    requires k + |t| <= |s| && s[k..k + |t|] == t
    ensures Contains(s, t)
  {
    if k > 0 {
      assert s[1..][k - 1..k - 1 + |t|] == t;
      ContainsAt(s[1..], t, k - 1);
    }
  }

  /** A string `t` occurs in `s` only if its first character does. */
  lemma {:induction false} ContainsFirstChar(s: string, t: string)
    requires t != [] && Contains(s, t)
    ensures exists k :: 0 <= k <= |s| - |t| && s[k] == t[0] && s[k..k + |t|] == t
  {
    if StartsWith(s, t) {
      assert s[0..0 + |t|] == t;
      assert s[0] == t[0];
    } else {
      ContainsFirstChar(s[1..], t);
      var k :| 0 <= k <= |s| - 1 - |t| && s[1..][k] == t[0] && s[1..][k..k + |t|] == t;
      assert s[k + 1..k + 1 + |t|] == s[1..][k..k + |t|];
    }
  }

  /** The characters of `s` that satisfy `keep`, in order. */
  function KeepChars(s: string, keep: char -> bool): (r: string)
    ensures |r| <= |s|
    ensures forall i :: 0 <= i < |r| ==> keep(r[i])
  {
    if s == [] then []
    else (if keep(s[0]) then [s[0]] else []) + KeepChars(s[1..], keep)
  }

  /** `s.replace(/[^\d]/g, '')` */
  function DigitsOf(s: string): (r: string)
    ensures |r| <= |s|
    ensures forall i :: 0 <= i < |r| ==> IsDigit(r[i])
  {
    KeepChars(s, IsDigit)
  }

  lemma {:induction false} KeepCharsAll(s: string, keep: char -> bool)
    requires forall i :: 0 <= i < |s| ==> keep(s[i])
    ensures KeepChars(s, keep) == s
  {
    if s != [] {
      KeepCharsAll(s[1..], keep);
    }
  }

  /** Keeping characters from two strings one after the other. */
  lemma {:induction false} KeepCharsAppend(a: string, b: string, keep: char -> bool)
    ensures KeepChars(a + b, keep) == KeepChars(a, keep) + KeepChars(b, keep)
  {
    if a == [] {
      assert a + b == b;
    } else {
      assert (a + b)[1..] == a[1..] + b;
      KeepCharsAppend(a[1..], b, keep);
    }
  }

  // ---------------------------------------------------------------------
  // Split and join on one separator character
  // ---------------------------------------------------------------------

  /** `s.split(sep)` for a one-character separator: the pieces between the
      occurrences of `sep`; there is always at least one piece. */
  function Split(s: string, sep: char): (r: seq<string>)
    ensures |r| >= 1
    ensures forall k :: 0 <= k < |r| ==> sep !in r[k]
  {
    if s == [] then [[]]
    else
      var rest := Split(s[1..], sep);
      if s[0] == sep then [[]] + rest
      else [[s[0]] + rest[0]] + rest[1..]
  }

  /** `parts.join(sep)` */
  function Join(parts: seq<string>, sep: string): string {
    if parts == [] then []
    else if |parts| == 1 then parts[0]
    else parts[0] + sep + Join(parts[1..], sep)
  }

  /** Joining the pieces with the separator gives back the original text. */
  lemma {:induction false} JoinSplit(s: string, sep: char)
    ensures Join(Split(s, sep), [sep]) == s
  {
    if s != [] {
      JoinSplit(s[1..], sep);
      var rest := Split(s[1..], sep);
      if s[0] != sep {
        if |rest| == 1 {
          assert Split(s, sep) == [[s[0]] + rest[0]];
        } else {
          var r := Split(s, sep);
          assert r[1..] == rest[1..];
          assert Join(r, [sep]) == [s[0]] + rest[0] + [sep] + Join(rest[1..], [sep]);
        }
      }
    }
  }

  /** The number of pieces is one more than the number of separators. */
  lemma {:induction false} SplitCount(s: string, sep: char)
    ensures |Split(s, sep)| == 1 + multiset(s)[sep]
  {
    if s != [] {
      SplitCount(s[1..], sep);
      assert s == [s[0]] + s[1..];
      assert multiset(s) == multiset([s[0]]) + multiset(s[1..]);
    }
  }

  // ---------------------------------------------------------------------
  // Sums and filters
  // ---------------------------------------------------------------------

  /** `s.reduce((acc, x) => acc + f(x), 0)` */
  function SumOf<T>(s: seq<T>, f: T -> int): int {
    if s == [] then 0 else f(s[0]) + SumOf(s[1..], f)
  }

  lemma {:induction false} SumOfAppend<T>(a: seq<T>, b: seq<T>, f: T -> int)
    ensures SumOf(a + b, f) == SumOf(a, f) + SumOf(b, f)
  {
    if a != [] {
      assert (a + b)[1..] == a[1..] + b;
      SumOfAppend(a[1..], b, f);
    } else {
      assert a + b == b;
    }
  }

  lemma {:induction false} SumOfNonNegative<T>(s: seq<T>, f: T -> int)
    requires forall i :: 0 <= i < |s| ==> f(s[i]) >= 0
    ensures SumOf(s, f) >= 0
  {
    if s != [] {
      SumOfNonNegative(s[1..], f);
    }
  }

  function RealSumOf<T>(s: seq<T>, f: T -> real): real {
    if s == [] then 0.0 else f(s[0]) + RealSumOf(s[1..], f)
  }

  lemma {:induction false} RealSumOfAppend<T>(a: seq<T>, b: seq<T>, f: T -> real)
    ensures RealSumOf(a + b, f) == RealSumOf(a, f) + RealSumOf(b, f)
  {
    if a != [] {
      assert (a + b)[1..] == a[1..] + b;
      RealSumOfAppend(a[1..], b, f);
    } else {
      assert a + b == b;
    }
  }

  /** `s.filter(p)`: the elements satisfying `p`, in their original order. */
  function Filter<T>(s: seq<T>, p: T -> bool): (r: seq<T>)
    ensures |r| <= |s|
    ensures forall i :: 0 <= i < |r| ==> p(r[i])
    ensures multiset(r) <= multiset(s)
  {
    if s == [] then []
    else
      var rest := Filter(s[1..], p);
      assert s == [s[0]] + s[1..];
      if p(s[0]) then [s[0]] + rest else rest
  }

  /** An element is kept exactly when it was there and satisfies `p`. */
  lemma {:induction false} FilterMembership<T>(s: seq<T>, p: T -> bool, x: T)
    ensures x in Filter(s, p) <==> x in s && p(x)
  {
    if s != [] {
      FilterMembership(s[1..], p, x);
      assert x in s <==> x == s[0] || x in s[1..];
    }
  }

  /** Nothing satisfying `p` is dropped: the multiset of kept elements is the
      multiset of the elements satisfying `p`. */
  lemma {:induction false} FilterCount<T>(s: seq<T>, p: T -> bool, x: T)
    ensures multiset(Filter(s, p))[x] == if p(x) then multiset(s)[x] else 0
  {
    if s != [] {
      FilterCount(s[1..], p, x);
      var head: seq<T> := if p(s[0]) then [s[0]] else [];
      assert s == [s[0]] + s[1..];
      assert multiset(s) == multiset{s[0]} + multiset(s[1..]);
      assert Filter(s, p) == head + Filter(s[1..], p);
      assert multiset(Filter(s, p)) == multiset(head) + multiset(Filter(s[1..], p));
    }
  }

  /** Filtering by a test and by its negation splits the sequence in two. */
  lemma {:induction false} FilterPartition<T>(s: seq<T>, p: T -> bool, q: T -> bool)
    requires forall x :: q(x) == !p(x)
    ensures |Filter(s, p)| + |Filter(s, q)| == |s|
  {
    if s != [] {
      FilterPartition(s[1..], p, q);
      assert |Filter(s, p)| == (if p(s[0]) then 1 else 0) + |Filter(s[1..], p)|;
      assert |Filter(s, q)| == (if q(s[0]) then 1 else 0) + |Filter(s[1..], q)|;
    }
  }

  /** Nothing is kept exactly when nothing satisfies `p`. */
  lemma FilterEmpty<T>(s: seq<T>, p: T -> bool)
    ensures Filter(s, p) == [] <==> forall x :: x in s ==> !p(x)
  {
    if Filter(s, p) != [] {
      var r := Filter(s, p);
      assert r[0] in multiset(s);
    } else {
      forall x | x in s
        ensures !p(x)
      {
        FilterMembership(s, p, x);
      }
    }
  }

  /** Everything is kept when everything satisfies `p`. */
  lemma {:induction false} FilterAll<T>(s: seq<T>, p: T -> bool)
    requires forall k :: 0 <= k < |s| ==> p(s[k])
    ensures Filter(s, p) == s
  {
    if s != [] {
      FilterAll(s[1..], p);
    }
  }

  lemma {:induction false} FilterAppend<T>(a: seq<T>, b: seq<T>, p: T -> bool)
    ensures Filter(a + b, p) == Filter(a, p) + Filter(b, p)
  {
    if a != [] {
      var ab := a + b;
      var head: seq<T> := if p(a[0]) then [a[0]] else [];
      assert ab[0] == a[0] && ab[1..] == a[1..] + b;
      FilterAppend(a[1..], b, p);
      assert Filter(ab, p) == head + Filter(ab[1..], p);
      assert Filter(a, p) == head + Filter(a[1..], p);
      assert head + (Filter(a[1..], p) + Filter(b, p)) == head + Filter(a[1..], p) + Filter(b, p);
    } else {
      assert a + b == b;
    }
  }

  /** A filter that drops all of a prefix and keeps all of the rest gives
      the rest. */
  lemma FilterSplit<T>(s: seq<T>, n: nat, p: T -> bool)
    requires n <= |s|
    requires Filter(s[..n], p) == [] && Filter(s[n..], p) == s[n..]
    ensures Filter(s, p) == s[n..]
  {
    assert s == s[..n] + s[n..];
    FilterAppend(s[..n], s[n..], p);
    assert [] + s[n..] == s[n..];
  }

  /** The test "differs from `x`". */
  function Other<T(==)>(x: T): T -> bool {
    (y: T) => y != x
  }

  /** `prev.includes(x) ? prev.filter(y => y !== x) : [...prev, x]`: a
      selected value is deselected (every copy of it), an unselected one is
      appended. */
  function Toggled<T(==)>(list: seq<T>, x: T): seq<T> {
    if x in list then Filter(list, Other(x)) else list + [x]
  }

  /** Toggling flips the membership of `x` and of nothing else. */
  lemma ToggledMembership<T>(list: seq<T>, x: T, y: T)
    ensures y in Toggled(list, x) <==> if y == x then x !in list else y in list
  {
    if x in list {
      FilterMembership(list, Other(x), y);
    }
  }

  /** Selecting a value and deselecting it again restores the list. */
  lemma ToggledTwice<T>(list: seq<T>, x: T)
    requires x !in list
    ensures Toggled(Toggled(list, x), x) == list
  {
    assert x in list + [x];
    FilterAppend(list, [x], Other(x));
    FilterAll(list, Other(x));
    assert Filter([x], Other(x)) == [];
  }

  /** A list without repetitions stays without repetitions. */
  lemma ToggledDistinct<T>(list: seq<T>, x: T)
    requires forall i, j :: 0 <= i < j < |list| ==> list[i] != list[j]
    ensures var r := Toggled(list, x); forall i, j :: 0 <= i < j < |r| ==> r[i] != r[j]
  {
    if x in list {
      assert Toggled(list, x) == Filter(list, Other(x));
      FilterDistinct(list, Other(x));
    } else {
      var r := list + [x];
      forall i, j | 0 <= i < j < |r|
        ensures r[i] != r[j]
      {
        if j == |list| {
          assert r[i] == list[i] && r[i] in list;
        } else {
          assert r[i] == list[i] && r[j] == list[j];
        }
      }
    }
  }

  /** Filtering keeps a list without repetitions so. */
  lemma {:induction false} FilterDistinct<T>(s: seq<T>, p: T -> bool)
    requires forall i, j :: 0 <= i < j < |s| ==> s[i] != s[j]
    ensures var r := Filter(s, p); forall i, j :: 0 <= i < j < |r| ==> r[i] != r[j]
  {
    if s != [] {
      FilterDistinct(s[1..], p);
      var rest := Filter(s[1..], p);
      if p(s[0]) {
        FilterMembership(s[1..], p, s[0]);
        var r := [s[0]] + rest;
        forall i, j | 0 <= i < j < |r|
          ensures r[i] != r[j]
        {
          if i == 0 {
            assert r[j] == rest[j - 1] && rest[j - 1] in rest;
          } else {
            assert r[i] == rest[i - 1] && r[j] == rest[j - 1];
          }
        }
      }
    }
  }

  // ---------------------------------------------------------------------
  // Stable sort by an integer key (Array.prototype.sort with a numeric
  // comparator is stable)
  // ---------------------------------------------------------------------

  predicate SortedBy<T>(s: seq<T>, key: T -> int) {
    forall i, j :: 0 <= i < j < |s| ==> key(s[i]) <= key(s[j])
  }

  /** Sorts `s` ascending by `key`, inserting each element after those
      with a smaller or equal key (the contract states order and
      permutation; stability is not stated). */
  function SortBy<T>(s: seq<T>, key: T -> int): (r: seq<T>)
    ensures |r| == |s|
    ensures multiset(r) == multiset(s)
    ensures SortedBy(r, key)
    decreases |s|
  {
    if s == [] then []
    else
      var init, last := s[..|s| - 1], s[|s| - 1];
      var rest := SortBy(init, key);
      assert s == init + [last];
      InsertLastPermutes(rest, last, key);
      InsertLastSorted(rest, last, key);
      InsertLast(rest, last, key)
  }

  /** Places `x`, which comes after every element of `s` in the input, behind
      all elements whose key is not larger (keeps the sort stable). */
  function InsertLast<T>(s: seq<T>, x: T, key: T -> int): (r: seq<T>)
    ensures |r| == |s| + 1
  {
    if s == [] then [x]
    else if key(s[|s| - 1]) <= key(x) then s + [x]
    else InsertLast(s[..|s| - 1], x, key) + [s[|s| - 1]]
  }

  lemma {:induction false} InsertLastPermutes<T>(s: seq<T>, x: T, key: T -> int)
    ensures multiset(InsertLast(s, x, key)) == multiset(s) + multiset{x}
  {
    if s != [] && key(x) < key(s[|s| - 1]) {
      var init, last := s[..|s| - 1], s[|s| - 1];
      InsertLastPermutes(init, x, key);
      assert s == init + [last];
    }
  }

  /** Every element of the result is `x` or an element of `s`. */
  lemma {:induction false} InsertLastFrom<T>(s: seq<T>, x: T, key: T -> int)
    ensures forall k :: 0 <= k < |InsertLast(s, x, key)| ==>
      InsertLast(s, x, key)[k] == x || InsertLast(s, x, key)[k] in s
  {
    if s != [] && key(x) < key(s[|s| - 1]) {
      var init, last := s[..|s| - 1], s[|s| - 1];
      InsertLastFrom(init, x, key);
      var r, rest := InsertLast(s, x, key), InsertLast(init, x, key);
      forall k | 0 <= k < |r|
        ensures r[k] == x || r[k] in s
      {
        if k < |rest| {
          assert r[k] == rest[k];
          if rest[k] != x {
            var m :| 0 <= m < |init| && init[m] == rest[k];
            assert s[m] == init[m];
          }
        }
      }
    }
  }

  lemma {:induction false} InsertLastSorted<T>(s: seq<T>, x: T, key: T -> int)
    requires SortedBy(s, key)
    ensures SortedBy(InsertLast(s, x, key), key)
  {
    if s != [] && key(x) < key(s[|s| - 1]) {
      var init, last := s[..|s| - 1], s[|s| - 1];
      assert SortedBy(init, key);
      InsertLastSorted(init, x, key);
      InsertLastFrom(init, x, key);
      var rest := InsertLast(init, x, key);
      forall k | 0 <= k < |rest|
        ensures key(rest[k]) <= key(last)
      {
        if rest[k] != x {
          var m :| 0 <= m < |init| && init[m] == rest[k];
          assert s[m] == init[m];
        }
      }
    }
  }

  /** The position of the first element with the smallest key. */
  function FirstMin<T>(s: seq<T>, key: T -> int): (i: nat)
    requires s != []
    ensures i < |s|
    ensures forall j :: 0 <= j < |s| ==> key(s[i]) <= key(s[j])
    ensures forall j :: 0 <= j < i ==> key(s[i]) < key(s[j])
  {
    if |s| == 1 then 0
    else
      var i := FirstMin(s[..|s| - 1], key);
      if key(s[|s| - 1]) < key(s[i]) then |s| - 1 else i
  }

  lemma {:induction false} InsertLastHead<T>(s: seq<T>, x: T, key: T -> int)
    requires SortedBy(s, key)
    ensures InsertLast(s, x, key)[0] == if s != [] && key(s[0]) <= key(x) then s[0] else x
  {
    if s != [] && key(x) < key(s[|s| - 1]) {
      InsertLastHead(s[..|s| - 1], x, key);
    }
  }

  /** The sort is stable at its head: the first element of the sorted
      sequence is the first element of the input with the smallest key. */
  lemma {:induction false} SortByHead<T>(s: seq<T>, key: T -> int)
    requires s != []
    ensures SortBy(s, key)[0] == s[FirstMin(s, key)]
    decreases |s|
  {
    var init := s[..|s| - 1];
    if init != [] {
      SortByHead(init, key);
      InsertLastHead(SortBy(init, key), s[|s| - 1], key);
    }
  }

  // ---------------------------------------------------------------------
  // Decimal numerals
  // ---------------------------------------------------------------------

  predicate AllDigits(s: string) {
    forall i :: 0 <= i < |s| ==> IsDigit(s[i])
  }

  function DigitChar(d: nat): char
    requires d < 10
  {
    ('0' as int + d) as char
  }

  /** The value of a string of decimal digits (most significant first). */
  function DecimalValue(s: string): nat
    requires AllDigits(s)
  {
    if s == [] then 0
    else DecimalValue(s[..|s| - 1]) * 10 + (s[|s| - 1] as int - '0' as int)
  }

  /** `String(n)` for a natural number: no leading zeros, at least one digit. */
  function DecimalText(n: nat): (r: string)
    ensures |r| >= 1 && AllDigits(r)
    ensures r[0] == '0' ==> n == 0
  {
    if n < 10 then [DigitChar(n)] else DecimalText(n / 10) + [DigitChar(n % 10)]
  }

  lemma {:induction false} DecimalRoundTrip(n: nat)
    ensures DecimalValue(DecimalText(n)) == n
  {
    if n >= 10 {
      var t := DecimalText(n);
      assert t[..|t| - 1] == DecimalText(n / 10);
      DecimalRoundTrip(n / 10);
    }
  }

  /** `String(n)` for any integer. */
  function IntText(n: int): (r: string)
    ensures |r| >= 1
  {
    if n < 0 then "-" + DecimalText(-n) else DecimalText(n)
  }

  /** A string whose ends are not white space is its own trim. */
  lemma TrimNoSpace(s: string)
    requires s != [] && !IsSpace(s[0]) && !IsSpace(s[|s| - 1])
    ensures Trim(s) == s
  {
  }

  // ---------------------------------------------------------------------
  // Rounding
  // ---------------------------------------------------------------------

  /** `Math.round(n / d)` for a positive divisor: the nearest integer, ties
      going up. */
  function RoundDiv(n: int, d: int): (r: int)
    requires d > 0
    ensures (2 * r - 1) * d <= 2 * n < (2 * r + 1) * d
  {
    var q := (2 * n + d) / (2 * d);
    var m := (2 * n + d) % (2 * d);
    assert 2 * n + d == 2 * d * q + m && 0 <= m < 2 * d;
    assert (2 * q - 1) * d == 2 * d * q - d;
    assert (2 * q + 1) * d == 2 * d * q + d;
    q
  }

  /** The rounding is unique: any integer within half of `n / d` (ties
      up) is `RoundDiv(n, d)`. */
  lemma RoundDivUnique(n: int, d: int, r: int)
    requires d > 0 && (2 * r - 1) * d <= 2 * n < (2 * r + 1) * d
    ensures r == RoundDiv(n, d)
  {
    var q := RoundDiv(n, d);
    if r < q {
      assert (2 * r + 1) * d <= (2 * q - 1) * d by {
        assert 2 * r + 1 <= 2 * q - 1;
        MulMonotone(2 * r + 1, 2 * q - 1, d);
      }
    } else if r > q {
      assert (2 * q + 1) * d <= (2 * r - 1) * d by {
        MulMonotone(2 * q + 1, 2 * r - 1, d);
      }
    }
  }

  lemma MulMonotone(a: int, b: int, d: int)
    requires a <= b && d >= 0
    ensures a * d <= b * d
  {
    assert b * d - a * d == (b - a) * d;
  }
}
