/** Shared vocabulary: optional values, results, and the few JavaScript string
    primitives (whitespace class, ASCII lower-casing, `includes`, `trim`) that
    several server and client modules rely on. */
module Common {

  datatype Option<+T> = None | Some(value: T)

  /** A handler outcome: a value, or the error the route answers with. */
  datatype Result<+T, +E> = Success(value: T) | Failure(error: E)

  /** The `\s` class of JavaScript regular expressions, which is also the set
      of characters `String.prototype.trim` removes. */
  predicate IsJsSpace(c: char)
  {
    c == ' ' || c == '\t' || c == '\n' || c == '\r' || c == '\U{B}' || c == '\U{C}'
    || c == '\U{A0}' || c == '\U{1680}' || ('\U{2000}' <= c <= '\U{200A}')
    || c == '\U{2028}' || c == '\U{2029}' || c == '\U{202F}' || c == '\U{205F}'
    || c == '\U{3000}' || c == '\U{FEFF}'
  }

  /** Characters that `.` in a JavaScript regular expression does not match. */
  predicate IsLineTerminator(c: char)
  {
    c == '\n' || c == '\r' || c == '\U{2028}' || c == '\U{2029}'
  }

  predicate IsAsciiUpper(c: char) { 'A' <= c <= 'Z' }
  predicate IsAsciiLower(c: char) { 'a' <= c <= 'z' }
  predicate IsDigit(c: char) { '0' <= c <= '9' }

  function LowerChar(c: char): (r: char)
    ensures !IsAsciiUpper(r)
    ensures IsAsciiUpper(c) ==> IsAsciiLower(r)
    ensures !IsAsciiUpper(c) ==> r == c
  {
    if IsAsciiUpper(c) then (c as int + 32) as char else c
  }

  /** `toLowerCase`, on the ASCII letters. */
  function ToLower(s: string): (r: string)
    ensures |r| == |s|
    ensures forall i :: 0 <= i < |s| ==> r[i] == LowerChar(s[i])
  {
    if s == [] then [] else [LowerChar(s[0])] + ToLower(s[1..])
  }

  predicate NoUpper(s: string)
  {
    forall i :: 0 <= i < |s| ==> !IsAsciiUpper(s[i])
  }

  predicate IsPrefix(p: string, s: string)
  {
    |p| <= |s| && s[..|p|] == p
  }

  /** `s.includes(sub)`: `sub` starts at some position of `s`. */
  predicate Contains(s: string, sub: string)
    decreases |s|
  {
    IsPrefix(sub, s) || (s != [] && Contains(s[1..], sub))
  }

  /** A case-insensitive match of the literal pattern `sub` somewhere in `s`,
      as an escaped regular expression with the `i` flag does it. */
  predicate ContainsCi(s: string, sub: string)
  {
    Contains(ToLower(s), ToLower(sub))
  }

  function TrimStart(s: string): (r: string)
    ensures |r| <= |s|
    ensures r != [] ==> !IsJsSpace(r[0])
  {
    if s != [] && IsJsSpace(s[0]) then TrimStart(s[1..]) else s
  }

  /** `TrimStart` only removes a leading run of whitespace. */
  lemma {:induction false} TrimStartDropsSpaces(s: string)
    ensures TrimStart(s) == s[|s| - |TrimStart(s)|..]
    ensures forall i :: 0 <= i < |s| - |TrimStart(s)| ==> IsJsSpace(s[i])
  {
    if s != [] && IsJsSpace(s[0]) {
      TrimStartDropsSpaces(s[1..]);
    }
  }

  function TrimEnd(s: string): (r: string)
    ensures |r| <= |s|
    ensures r != [] ==> !IsJsSpace(r[|r| - 1])
  {
    if s != [] && IsJsSpace(s[|s| - 1]) then TrimEnd(s[..|s| - 1]) else s
  }

  /** `TrimEnd` only removes a trailing run of whitespace. */
  lemma {:induction false} TrimEndDropsSpaces(s: string)
    ensures TrimEnd(s) == s[..|TrimEnd(s)|]
    ensures forall i :: |TrimEnd(s)| <= i < |s| ==> IsJsSpace(s[i])
  {
    if s != [] && IsJsSpace(s[|s| - 1]) {
      TrimEndDropsSpaces(s[..|s| - 1]);
    }
  }

  /** Only a trailing run of whitespace is removed: a string holding a
      character other than whitespace keeps its first character. */
  lemma {:induction false} TrimEndCons(s: string, j: nat)
    requires j < |s| && !IsJsSpace(s[j])
    ensures TrimEnd(s) == [s[0]] + TrimEnd(s[1..])
    decreases |s|
  {
    if IsJsSpace(s[|s| - 1]) {
      var s' := s[..|s| - 1];
      TrimEndCons(s', j);
      assert s'[1..] == s[1..][..|s[1..]| - 1];
    } else {
      assert [s[0]] + s[1..] == s;
    }
  }

  /** `s.trim()`: no whitespace at either end of the result. */
  function Trim(s: string): (r: string)
    ensures |r| <= |s|
    ensures r != [] ==> !IsJsSpace(r[0]) && !IsJsSpace(r[|r| - 1])
  {
    TrimEndDropsSpaces(TrimStart(s));
    TrimEnd(TrimStart(s))
  }

  /** The result of `trim` is the infix of `s` left after removing whitespace
      from both ends, and all-whitespace strings trim to the empty string. */
  lemma TrimIsInfix(s: string)
    ensures var k := |s| - |TrimStart(s)|;
            k + |Trim(s)| <= |s| && Trim(s) == s[k..k + |Trim(s)|]
            && (forall i :: 0 <= i < k ==> IsJsSpace(s[i]))
            && (forall i :: k + |Trim(s)| <= i < |s| ==> IsJsSpace(s[i]))
  {
    TrimStartDropsSpaces(s);
    TrimEndDropsSpaces(TrimStart(s));
  }

  /** A truthy optional string: present and not empty. */
  predicate Truthy(o: Option<string>)
  {
    o.Some? && o.value != []
  }

  function Min(a: int, b: int): int { if a <= b then a else b }

  /** `x ?? d` and `x || d` on a value that is either present or missing. */
  function GetOr<T>(o: Option<T>, d: T): T { if o.Some? then o.value else d }

  /** The first `n` elements, as `slice(0, n)` and a query `limit(n)` give them. */
  function Take<T>(s: seq<T>, n: nat): (r: seq<T>)
    ensures |r| == Min(|s|, n)
    ensures r == s[..|r|]
  {
    if |s| <= n then s else s[..n]
  }

  /** Taking from a list with a head keeps the head and takes one fewer
      from the rest. */
  lemma TakeCons<T>(x: T, s: seq<T>, n: nat)
    requires n > 0
    ensures Take([x] + s, n) == [x] + Take(s, n - 1)
  {
    var r := Take([x] + s, n);
    assert r == ([x] + s)[..|r|];
    assert Take(s, n - 1) == s[..|r| - 1];
  }

  /** Dropping a prefix of the left operand of a concatenation. */
  lemma DropAppend<T>(a: seq<T>, b: seq<T>, k: nat)
    requires k <= |a|
    ensures (a + b)[k..] == a[k..] + b
  {
  }

  /** Concatenation is associative. */
  lemma AppendAssoc<T>(x: seq<T>, a: seq<T>, b: seq<T>)
    ensures x + (a + b) == (x + a) + b
  {
  }

  /** The elements occur pairwise distinct. */
  predicate Distinct<T(==)>(s: seq<T>)
  {
    forall i, j :: 0 <= i < j < |s| ==> s[i] != s[j]
  }
}
