/**
 * Shared vocabulary of the model: optional values, the clock, HTTP replies,
 * the two string normalisations the schemas apply (JavaScript `trim` and
 * `toLowerCase`), and the selection/sorting that stands for Mongo's
 * `find(...).sort(...)`.
 */
module Common {

  datatype Option<+T> = None | Some(value: T)

  /** Absolute instants are milliseconds since the epoch, as JavaScript `Date`s are. */
  type Time = int

  const SECOND: int := 1000
  const MINUTE: int := 60 * SECOND
  const HOUR: int := 60 * MINUTE
  const DAY: int := 24 * HOUR

  /** A JavaScript `Date` holds at most 8.64e15 ms either side of the epoch; beyond that it is invalid. */
  const MaxTimeValue: int := 8_640_000_000_000_000

  predicate ValidTimeValue(t: Time)
  {
    -MaxTimeValue <= t <= MaxTimeValue
  }

  /** The HTTP statuses the route handlers answer with. */
  datatype Reply = Ok | Created | BadRequest | NotFound | ServerError

  function Code(r: Reply): (code: int)
    ensures 200 <= code < 600
    ensures (code < 300) <==> (r == Ok || r == Created)
  {
    match r
    case Ok => 200
    case Created => 201
    case BadRequest => 400
    case NotFound => 404
    case ServerError => 500
  }

  // ---------------------------------------------------------------------------
  // Strings

  /** JavaScript white space and line terminators, the characters `trim` drops. */
  predicate IsSpace(c: char)
  {
    c == ' ' || c == '\t' || c == '\n' || c == '\r' || c == '\U{000B}' || c == '\U{000C}'
    || c == '\U{00A0}' || c == '\U{1680}' || ('\U{2000}' <= c <= '\U{200A}')
    || c == '\U{2028}' || c == '\U{2029}' || c == '\U{202F}' || c == '\U{205F}'
    || c == '\U{3000}' || c == '\U{FEFF}'
  }

  function TrimStart(s: string): (r: string)
    ensures |r| <= |s| && r == s[|s| - |r|..]
    ensures r == [] || !IsSpace(r[0])
    ensures forall i :: 0 <= i < |s| - |r| ==> IsSpace(s[i])
  {
    if s != [] && IsSpace(s[0]) then TrimStart(s[1..]) else s
  }

  function TrimEnd(s: string): (r: string)
    ensures |r| <= |s| && r == s[..|r|]
    ensures r == [] || !IsSpace(r[|r| - 1])
    ensures forall i :: |r| <= i < |s| ==> IsSpace(s[i])
  {
    if s != [] && IsSpace(s[|s| - 1]) then TrimEnd(s[..|s| - 1]) else s
  }

  /** `String.prototype.trim`: drops leading and trailing white space. */
  function Trim(s: string): string
  {
    TrimEnd(TrimStart(s))
  }

  predicate Trimmed(s: string)
  {
    s == [] || (!IsSpace(s[0]) && !IsSpace(s[|s| - 1]))
  }

  lemma TrimFacts(s: string)
    ensures Trimmed(Trim(s))
    ensures Trim(Trim(s)) == Trim(s)
    ensures Trimmed(s) ==> Trim(s) == s
    ensures Trim(s) == [] <==> forall i :: 0 <= i < |s| ==> IsSpace(s[i])
  {
    var t := TrimStart(s);
    var r := TrimEnd(t);
    if r != [] {
      assert r[0] == t[0];
    }
    if Trimmed(s) && s != [] {
      assert t == s;
    }
  }

  /**
   * `s.length` in JavaScript: the number of UTF-16 code units, two for each
   * character beyond the Basic Multilingual Plane.
   */
  function Utf16Length(s: string): (n: nat)
    ensures |s| <= n <= 2 * |s|
    ensures (forall i :: 0 <= i < |s| ==> s[i] <= '\U{FFFF}') ==> n == |s|
    ensures (forall i :: 0 <= i < |s| ==> s[i] > '\U{FFFF}') ==> n == 2 * |s|
  {
    if s == [] then 0 else (if s[0] <= '\U{FFFF}' then 1 else 2) + Utf16Length(s[1..])
  }

  /** Lower-casing of the ASCII letters (what `lowercase: true` does to an ASCII address). */
  function LowerChar(c: char): (d: char)
    ensures !('A' <= d <= 'Z')
  {
    if 'A' <= c <= 'Z' then (c as int + 32) as char else c
  }

  function Lower(s: string): (r: string)
    ensures |r| == |s|
    ensures forall i :: 0 <= i < |s| ==> r[i] == LowerChar(s[i])
  {
    seq(|s|, i requires 0 <= i < |s| => LowerChar(s[i]))
  }

  /** Lower-casing neither creates nor removes white space, and is idempotent. */
  lemma LowerFacts(s: string)
    ensures Trimmed(s) ==> Trimmed(Lower(s))
    ensures Lower(Lower(s)) == Lower(s)
  {
    var r := Lower(s);
    if s != [] {
      assert r[0] == LowerChar(s[0]);
      assert r[|r| - 1] == LowerChar(s[|s| - 1]);
      assert 'A' <= s[0] <= 'Z' ==> !IsSpace(r[0]) && !IsSpace(s[0]);
      assert 'A' <= s[|s| - 1] <= 'Z' ==> !IsSpace(r[|r| - 1]) && !IsSpace(s[|s| - 1]);
    }
  }

  // ---------------------------------------------------------------------------
  // Selection and ordering of query results

  /** The elements of `s` that satisfy `p`, in their original order. */
  function Filter<T(==)>(s: seq<T>, p: T -> bool): (r: seq<T>)
    ensures |r| <= |s|
    ensures forall i :: 0 <= i < |r| ==> p(r[i]) && r[i] in s
    ensures forall i :: 0 <= i < |s| && p(s[i]) ==> s[i] in r
  {
    if s == [] then []
    else if p(s[0]) then [s[0]] + Filter(s[1..], p)
    else Filter(s[1..], p)
  }

  lemma {:induction false} FilterCount<T>(s: seq<T>, p: T -> bool, x: T)
    ensures multiset(Filter(s, p))[x] == if p(x) then multiset(s)[x] else 0
  {
    if s != [] {
      var rest := Filter(s[1..], p);
      FilterCount(s[1..], p, x);
      assert s == [s[0]] + s[1..];
      assert multiset(s) == multiset{s[0]} + multiset(s[1..]);
      if p(s[0]) {
        assert Filter(s, p) == [s[0]] + rest;
        assert multiset(Filter(s, p)) == multiset{s[0]} + multiset(rest);
      } else {
        assert Filter(s, p) == rest;
      }
    }
  }

  /** Selection distributes over concatenation. */
  lemma {:induction false} FilterAppend<T>(a: seq<T>, b: seq<T>, p: T -> bool)
    ensures Filter(a + b, p) == Filter(a, p) + Filter(b, p)
  {
    if a != [] {
      assert (a + b)[0] == a[0];
      assert (a + b)[1..] == a[1..] + b;
      FilterAppend(a[1..], b, p);
    } else {
      assert a + b == b;
    }
  }

  /** Nothing is selected from a sequence none of whose elements qualifies. */
  lemma {:induction false} FilterNone<T>(s: seq<T>, p: T -> bool)
    requires forall k :: 0 <= k < |s| ==> !p(s[k])
    ensures Filter(s, p) == []
  {
    if s != [] {
      FilterNone(s[1..], p);
    }
  }

  /** `Filter` keeps every element that satisfies `p` as often as it occurs, and nothing else. */
  lemma FilterSelects<T>(s: seq<T>, p: T -> bool)
    ensures forall x :: multiset(Filter(s, p))[x] == if p(x) then multiset(s)[x] else 0
  {
    forall x ensures multiset(Filter(s, p))[x] == if p(x) then multiset(s)[x] else 0 {
      FilterCount(s, p, x);
    }
  }

  ghost predicate Ascending<T>(s: seq<T>, key: T -> int)
  {
    forall i, j :: 0 <= i < j < |s| ==> key(s[i]) <= key(s[j])
  }

  function Insert<T>(x: T, s: seq<T>, key: T -> int): (r: seq<T>)
    requires Ascending(s, key)
    ensures Ascending(r, key)
    ensures multiset(r) == multiset(s) + multiset{x}
  {
    if s == [] then [x]
    else if key(x) <= key(s[0]) then [x] + s
    else
      var rest := Insert(x, s[1..], key);
      InsertBehind(x, s, key, rest);
      [s[0]] + rest
  }

  /** Putting the smallest element back in front of the insertion into the tail keeps the order. */
  lemma InsertBehind<T>(x: T, s: seq<T>, key: T -> int, rest: seq<T>)
    requires s != [] && Ascending(s, key) && key(s[0]) < key(x)
    requires Ascending(rest, key) && multiset(rest) == multiset(s[1..]) + multiset{x}
    ensures Ascending([s[0]] + rest, key)
    ensures multiset([s[0]] + rest) == multiset(s) + multiset{x}
  {
    assert s == [s[0]] + s[1..];
    forall i | 0 <= i < |rest| ensures key(s[0]) <= key(rest[i]) {
      var y := rest[i];
      assert y in multiset(rest);
      if y != x {
        assert y in multiset(s[1..]);
        var k :| 0 <= k < |s[1..]| && s[1..][k] == y;
        assert s[k + 1] == y;
      }
    }
    var r := [s[0]] + rest;
    forall i, j | 0 <= i < j < |r| ensures key(r[i]) <= key(r[j]) {
      if i > 0 {
        assert r[i] == rest[i - 1] && r[j] == rest[j - 1];
      } else {
        assert r[j] == rest[j - 1];
      }
    }
  }

  /**
   * A stable insertion sort on `key`, ascending. Mongo leaves the order of
   * equal keys open; keeping the collection order is one admissible choice.
   */
  function SortBy<T>(s: seq<T>, key: T -> int): (r: seq<T>)
    ensures Ascending(r, key)
    ensures multiset(r) == multiset(s)
  {
    if s == [] then []
    else
      assert s == [s[0]] + s[1..];
      Insert(s[0], SortBy(s[1..], key), key)
  }

  function Neg<T>(key: T -> int): T -> int
  {
    x => -key(x)
  }

  /** Sorting on the negated key: newest or latest first. */
  function SortByDesc<T>(s: seq<T>, key: T -> int): (r: seq<T>)
    ensures forall i, j :: 0 <= i < j < |r| ==> key(r[i]) >= key(r[j])
    ensures multiset(r) == multiset(s)
  {
    var r := SortBy(s, Neg(key));
    assert forall i, j :: 0 <= i < j < |r| ==> Neg(key)(r[i]) <= Neg(key)(r[j]);
    r
  }
}
