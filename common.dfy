/** Shared vocabulary of the model: optional values, results, and the few
    JavaScript string and array primitives the application code relies on
    (String.prototype.trim, includes, indexOf, startsWith, slice,
    Array.prototype.join and the stable Array.prototype.sort). */
module Common {

  datatype Option<T> = None | Some(value: T)

  datatype Result<T, E> = Ok(value: T) | Err(error: E)

  /** `s || ""` for an optional string: an absent value reads as "". */
  function OrEmpty(s: Option<string>): (r: string)
    ensures s.None? ==> r == ""
    ensures s.Some? ==> r == s.value
  {
    if s.Some? then s.value else ""
  }

  /** JavaScript truthiness of an optional string: present and non-empty. */
  predicate Truthy(s: Option<string>) {
    s.Some? && s.value != ""
  }

  /** `s.find(p)`: the first element satisfying `p`, if any. */
  function Find<T>(s: seq<T>, p: T -> bool): (r: Option<T>)
    ensures r.None? <==> forall i :: 0 <= i < |s| ==> !p(s[i])
    ensures r.Some? ==> exists i :: 0 <= i < |s| && s[i] == r.value && p(s[i]) && forall j :: 0 <= j < i ==> !p(s[j])
  {
    if s == [] then None
    else if p(s[0]) then Some(s[0])
    else
      var r := Find(s[1..], p);
      if r.Some? then
        ghost var i :| 0 <= i < |s[1..]| && s[1..][i] == r.value && p(s[1..][i]) && forall j :: 0 <= j < i ==> !p(s[1..][j]);
        assert s[i + 1] == r.value && forall j :: 0 <= j < i + 1 ==> !p(s[j]);
        r
      else r
  }

  // ---------------------------------------------------------------------
  // trim

  /** The characters String.prototype.trim removes: ECMAScript WhiteSpace
      (including the Unicode space separators) and LineTerminator. */
  predicate IsWhitespace(c: char) {
    || c == ' ' || c == '\t' || c == '\n' || c == '\r'
    || c == '\U{000B}' || c == '\U{000C}' || c == '\U{00A0}' || c == '\U{1680}'
    || ('\U{2000}' <= c <= '\U{200A}')
    || c == '\U{2028}' || c == '\U{2029}' || c == '\U{202F}' || c == '\U{205F}'
    || c == '\U{3000}' || c == '\U{FEFF}'
  }

  /** Drops the leading whitespace: the result is a suffix of `s`, starts with
      a non-whitespace character, and everything dropped was whitespace. */
  function TrimStart(s: string): (r: string)
    ensures |r| <= |s|
  {
    if s != [] && IsWhitespace(s[0]) then TrimStart(s[1..]) else s
  }

  lemma {:induction false} TrimStartSpec(s: string)
    ensures var r := TrimStart(s);
      && r == s[|s| - |r|..]
      && (r != [] ==> !IsWhitespace(r[0]))
      && (forall i :: 0 <= i < |s| - |r| ==> IsWhitespace(s[i]))
  {
    if s != [] && IsWhitespace(s[0]) {
      TrimStartSpec(s[1..]);
    }
  }

  /** Drops the trailing whitespace: the result is a prefix of `s`, ends with
      a non-whitespace character, and everything dropped was whitespace. */
  function TrimEnd(s: string): (r: string)
    ensures |r| <= |s|
  {
    if s != [] && IsWhitespace(s[|s| - 1]) then TrimEnd(s[..|s| - 1]) else s
  }

  lemma {:induction false} TrimEndSpec(s: string)
    ensures var r := TrimEnd(s);
      && r == s[..|r|]
      && (r != [] ==> !IsWhitespace(r[|r| - 1]))
      && (forall i :: |r| <= i < |s| ==> IsWhitespace(s[i]))
  {
    if s != [] && IsWhitespace(s[|s| - 1]) {
      TrimEndSpec(s[..|s| - 1]);
    }
  }

  function Trim(s: string): string {
    TrimEnd(TrimStart(s))
  }

  /** `!s.trim()` in JavaScript. */
  predicate IsBlank(s: string) {
    Trim(s) == []
  }

  /** A string trims to "" exactly when every character is whitespace. */
  lemma BlankIffAllWhitespace(s: string)
    ensures IsBlank(s) <==> forall i :: 0 <= i < |s| ==> IsWhitespace(s[i])
  {
    var t := TrimStart(s);
    TrimStartSpec(s);
    TrimEndSpec(t);
    if !IsBlank(s) {
      var u := TrimEnd(t);
      assert u != [];
      assert t[0] == u[0];
      var k := |s| - |t|;
      assert s[k] == t[0];
    }
  }

  /** A string whose first character is not whitespace is not blank. */
  lemma NotBlankWhenLeadingText(s: string)
    requires s != [] && !IsWhitespace(s[0])
    ensures !IsBlank(s)
  {
    BlankIffAllWhitespace(s);
  }

  // ---------------------------------------------------------------------
  // searching

  /** `t` holds `q` at position `i`. */
  predicate OccursAt(t: string, q: string, i: nat) {
    i + |q| <= |t| && t[i..i + |q|] == q
  }

  /** `t.indexOf(q, from)` for `from <= t.length`: the first occurrence at or
      after `from`, or -1. */
  function IndexOf(t: string, q: string, from: nat): (r: int)
    requires from <= |t|
    ensures r == -1 || (from <= r && OccursAt(t, q, r))
    ensures r == -1 ==> forall i: nat :: from <= i ==> !OccursAt(t, q, i)
    ensures r >= 0 ==> forall i: nat :: from <= i < r ==> !OccursAt(t, q, i)
    decreases |t| - from
  {
    if from + |q| > |t| then -1
    else if t[from..from + |q|] == q then from
    else IndexOf(t, q, from + 1)
  }

  /** `t.includes(q)`. */
  predicate Includes(t: string, q: string) {
    IndexOf(t, q, 0) >= 0
  }

  lemma IncludesIffOccurs(t: string, q: string)
    ensures Includes(t, q) <==> exists i: nat :: OccursAt(t, q, i)
  {
    if !Includes(t, q) {
      forall i: nat ensures !OccursAt(t, q, i) {
      }
    }
  }

  /** `s.startsWith(p)`. */
  predicate StartsWith(s: string, p: string) {
    |p| <= |s| && s[..|p|] == p
  }

  /** `s.slice(a, b)` for non-negative bounds: both are clamped to the length
      and an empty string results when they cross. */
  function Slice(s: string, a: nat, b: nat): (r: string)
    ensures a <= b <= |s| ==> r == s[a..b]
    ensures b <= a ==> r == []
  {
    var lo := if a < |s| then a else |s|;
    var hi := if b < |s| then b else |s|;
    if lo < hi then s[lo..hi] else []
  }

  /** `parts.join(sep)`. */
  function Join(parts: seq<string>, sep: string): string
  {
    if |parts| == 0 then ""
    else if |parts| == 1 then parts[0]
    else parts[0] + sep + Join(parts[1..], sep)
  }

  lemma JoinOne(a: string, sep: string)
    ensures Join([a], sep) == a
  {
  }

  lemma JoinPair(a: string, b: string, sep: string)
    ensures Join([a, b], sep) == a + sep + b
  {
    assert [a, b][1..] == [b];
  }

  lemma JoinTriple(a: string, b: string, c: string, sep: string)
    ensures Join([a, b, c], sep) == a + sep + b + sep + c
  {
    assert [a, b, c][1..] == [b, c];
    JoinPair(b, c, sep);
  }

  // ---------------------------------------------------------------------
  // comparisons and the stable sort

  predicate IntLe(a: int, b: int) {
    a <= b
  }

  /** The order a comparator `b - a` sorts by: descending. */
  predicate IntGe(a: int, b: int) {
    a >= b
  }

  lemma IntGeIsTotalPreorder()
    ensures TotalPreorder(IntGe)
  {
  }

  /** Ordering of strings by code point, lexicographically; the model's
      stand-in for String.prototype.localeCompare. */
  predicate StrLe(a: string, b: string)
    decreases |a|
  {
    a == [] || (b != [] && (a[0] < b[0] || (a[0] == b[0] && StrLe(a[1..], b[1..]))))
  }

  ghost predicate TotalPreorder<K(!new)>(le: (K, K) -> bool) {
    && (forall a, b :: le(a, b) || le(b, a))
    && (forall a, b, c :: le(a, b) && le(b, c) ==> le(a, c))
  }

  lemma IntLeIsTotalPreorder()
    ensures TotalPreorder(IntLe)
  {
  }

  lemma {:induction false} StrLeTotal(a: string, b: string)
    ensures StrLe(a, b) || StrLe(b, a)
    decreases |a|
  {
    if a != [] && b != [] && a[0] == b[0] {
      StrLeTotal(a[1..], b[1..]);
    }
  }

  lemma {:induction false} StrLeTransitive(a: string, b: string, c: string)
    requires StrLe(a, b) && StrLe(b, c)
    ensures StrLe(a, c)
    decreases |a|
  {
    if a != [] && b != [] && c != [] && a[0] == b[0] && b[0] == c[0] {
      StrLeTransitive(a[1..], b[1..], c[1..]);
    }
  }

  lemma StrLeIsTotalPreorder()
    ensures TotalPreorder(StrLe)
  {
    forall a, b ensures StrLe(a, b) || StrLe(b, a) {
      StrLeTotal(a, b);
    }
    forall a, b, c | StrLe(a, b) && StrLe(b, c) ensures StrLe(a, c) {
      StrLeTransitive(a, b, c);
    }
  }

  /** Inserts `x` after every leading element whose key is at most `x`'s,
      that is, in front of the first strictly greater one. */
  function InsertBy<T, K>(x: T, s: seq<T>, key: T -> K, le: (K, K) -> bool): (r: seq<T>)
    ensures multiset(r) == multiset(s) + multiset{x}
    ensures |r| == |s| + 1
  {
    if s == [] then [x]
    else if le(key(s[0]), key(x)) then
      assert s == [s[0]] + s[1..];
      [s[0]] + InsertBy(x, s[1..], key, le)
    else [x] + s
  }

  /** The stable Array.prototype.sort with comparator `key(a) ? key(b)`:
      an insertion sort that inserts each later element behind the equal
      ones already placed. */
  function SortBy<T, K>(s: seq<T>, key: T -> K, le: (K, K) -> bool): (r: seq<T>)
    ensures multiset(r) == multiset(s)
    ensures |r| == |s|
  {
    if s == [] then []
    else
      assert s == s[..|s| - 1] + [s[|s| - 1]];
      InsertBy(s[|s| - 1], SortBy(s[..|s| - 1], key, le), key, le)
  }

  ghost predicate SortedBy<T, K>(s: seq<T>, key: T -> K, le: (K, K) -> bool) {
    forall i, j :: 0 <= i < j < |s| ==> le(key(s[i]), key(s[j]))
  }

  /** The first `i + 1` elements are the first `i` followed by element `i`. */
  lemma PrefixSnoc<T>(s: seq<T>, i: nat)
    requires i < |s|
    ensures s[..i + 1] == s[..i] + [s[i]]
  {
  }

  /** An element whose key is below every key of a sorted list can go in
      front of it. */
  lemma ConsSorted<T, K>(a: T, t: seq<T>, key: T -> K, le: (K, K) -> bool)
    requires SortedBy(t, key, le)
    requires forall j :: 0 <= j < |t| ==> le(key(a), key(t[j]))
    ensures SortedBy([a] + t, key, le)
  {
    var r := [a] + t;
    forall i, j | 0 <= i < j < |r| ensures le(key(r[i]), key(r[j])) {
      assert r[j] == t[j - 1];
      if i > 0 {
        assert r[i] == t[i - 1];
      }
    }
  }

  lemma {:induction false} InsertBySorted<T, K(!new)>(x: T, s: seq<T>, key: T -> K, le: (K, K) -> bool)
    requires TotalPreorder(le)
    requires SortedBy(s, key, le)
    ensures SortedBy(InsertBy(x, s, key, le), key, le)
  {
    if s == [] {
    } else if le(key(s[0]), key(x)) {
      assert SortedBy(s[1..], key, le) by {
        forall i, j | 0 <= i < j < |s[1..]| ensures le(key(s[1..][i]), key(s[1..][j])) {
          assert s[1..][i] == s[i + 1] && s[1..][j] == s[j + 1];
        }
      }
      InsertBySorted(x, s[1..], key, le);
      var t := InsertBy(x, s[1..], key, le);
      forall j | 0 <= j < |t| ensures le(key(s[0]), key(t[j])) {
        assert t[j] in multiset(t);
        assert t[j] in multiset(s[1..]) + multiset{x};
        if t[j] != x {
          assert t[j] in s[1..];
          var k :| 0 <= k < |s[1..]| && s[1..][k] == t[j];
          assert s[k + 1] == t[j];
        }
      }
      ConsSorted(s[0], t, key, le);
    } else {
      assert le(key(x), key(s[0]));
      forall j | 0 <= j < |s| ensures le(key(x), key(s[j])) {
        if j > 0 {
          assert le(key(s[0]), key(s[j]));
        }
      }
      ConsSorted(x, s, key, le);
    }
  }

  /** The sort yields a permutation of its input, ordered by the key. */
  lemma {:induction false} SortBySorted<T, K(!new)>(s: seq<T>, key: T -> K, le: (K, K) -> bool)
    requires TotalPreorder(le)
    ensures SortedBy(SortBy(s, key, le), key, le)
    ensures multiset(SortBy(s, key, le)) == multiset(s)
    decreases |s|
  {
    if s != [] {
      SortBySorted(s[..|s| - 1], key, le);
      InsertBySorted(s[|s| - 1], SortBy(s[..|s| - 1], key, le), key, le);
    }
  }

  /** An element whose key is at least every key goes at the end. */
  lemma {:induction false} InsertByLast<T, K>(x: T, s: seq<T>, key: T -> K, le: (K, K) -> bool)
    requires forall i :: 0 <= i < |s| ==> le(key(s[i]), key(x))
    ensures InsertBy(x, s, key, le) == s + [x]
  {
    if s != [] {
      InsertByLast(x, s[1..], key, le);
      assert [s[0]] + (s[1..] + [x]) == s + [x];
    }
  }

  /** Sorting a list already in key order leaves it as it is. */
  lemma {:induction false} SortByOfSorted<T, K>(s: seq<T>, key: T -> K, le: (K, K) -> bool)
    requires SortedBy(s, key, le)
    ensures SortBy(s, key, le) == s
    decreases |s|
  {
    if s != [] {
      var init := s[..|s| - 1];
      assert SortedBy(init, key, le) by {
        forall i, j | 0 <= i < j < |init| ensures le(key(init[i]), key(init[j])) {
          assert init[i] == s[i] && init[j] == s[j];
        }
      }
      SortByOfSorted(init, key, le);
      InsertByLast(s[|s| - 1], init, key, le);
      assert init + [s[|s| - 1]] == s;
    }
  }

  // ---------------------------------------------------------------------
  // longest

  /** `s.reduce((a, b) => len(a) > len(b) ? a : b)` on a non-empty list, as
      the position of the element it returns: no element is longer, and
      every later one is strictly shorter, so ties go to the later element. */
  function LongestAt<T>(s: seq<T>, len: T -> int): (i: nat)
    requires |s| > 0
    ensures i < |s|
    ensures forall j :: 0 <= j < |s| ==> len(s[j]) <= len(s[i])
    ensures forall j :: i < j < |s| ==> len(s[j]) < len(s[i])
  {
    if |s| == 1 then 0
    else
      var a := LongestAt(s[..|s| - 1], len);
      assert forall j :: 0 <= j < |s| - 1 ==> s[..|s| - 1][j] == s[j];
      if len(s[a]) > len(s[|s| - 1]) then a else |s| - 1
  }
}
