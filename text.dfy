/** Strings as the two runtimes treat them: JavaScript truthiness and
    lower-casing, and Python's code-point ordering used by `sorted`. */
module Text {

  /** JavaScript truthiness of a string: only the empty string is falsy. */
  predicate Truthy(s: string) {
    s != ""
  }

  predicate IsUpper(c: char) {
    'A' <= c <= 'Z'
  }

  function LowerChar(c: char): char {
    if IsUpper(c) then (c as int + 32) as char else c
  }

  /** `String.prototype.toLowerCase`, restricted to the ASCII letters. */
  function ToLower(s: string): (r: string)
    ensures |r| == |s|
    ensures forall i :: 0 <= i < |r| ==> !IsUpper(r[i])
    ensures forall i :: 0 <= i < |s| && !IsUpper(s[i]) ==> r[i] == s[i]
    ensures forall i :: 0 <= i < |s| && IsUpper(s[i]) ==> r[i] == (s[i] as int + 32) as char
  {
    seq(|s|, i requires 0 <= i < |s| => LowerChar(s[i]))
  }

  /** Lower-casing twice is lower-casing once. */
  lemma ToLowerIdempotent(s: string)
    ensures ToLower(ToLower(s)) == ToLower(s)
  {
  }

  // ---------------------------------------------------------------------
  // Lexicographic order on code points (Python's `<=` on `str`)
  // ---------------------------------------------------------------------

  predicate StrLe(a: string, b: string) {
    |a| == 0 || (|b| > 0 && (a[0] < b[0] || (a[0] == b[0] && StrLe(a[1..], b[1..]))))
  }

  lemma {:induction false} StrLeReflexive(a: string)
    ensures StrLe(a, a)
  {
    if |a| > 0 {
      StrLeReflexive(a[1..]);
    }
  }

  lemma {:induction false} StrLeTotal(a: string, b: string)
    ensures StrLe(a, b) || StrLe(b, a)
  {
    if |a| > 0 && |b| > 0 && a[0] == b[0] {
      StrLeTotal(a[1..], b[1..]);
    }
  }

  lemma {:induction false} StrLeTransitive(a: string, b: string, c: string)
    requires StrLe(a, b) && StrLe(b, c)
    ensures StrLe(a, c)
  {
    if |a| > 0 && a[0] == b[0] && b[0] == c[0] {
      StrLeTransitive(a[1..], b[1..], c[1..]);
    }
  }

  lemma {:induction false} StrLeAntisymmetric(a: string, b: string)
    requires StrLe(a, b) && StrLe(b, a)
    ensures a == b
  {
    if |a| > 0 {
      StrLeAntisymmetric(a[1..], b[1..]);
      assert a == [a[0]] + a[1..];
      assert b == [b[0]] + b[1..];
    }
  }

  // ---------------------------------------------------------------------
  // Sorting strings, and Python's `sorted(series.unique())`
  // ---------------------------------------------------------------------

  predicate SortedStrings(s: seq<string>) {
    forall i, j :: 0 <= i < j < |s| ==> StrLe(s[i], s[j])
  }

  predicate NoDuplicates<T(==)>(s: seq<T>) {
    forall i, j :: 0 <= i < j < |s| ==> s[i] != s[j]
  }

  function InsertString(x: string, s: seq<string>): (r: seq<string>)
    requires SortedStrings(s)
    ensures SortedStrings(r)
    ensures |r| == |s| + 1
    ensures forall y :: y in r <==> y == x || y in s
    ensures NoDuplicates(s) && x !in s ==> NoDuplicates(r)
  {
    if s == [] then [x]
    else if StrLe(x, s[0]) then
      assert forall j :: 0 < j < |s| ==> StrLe(x, s[j]) by {
        forall j | 0 < j < |s| ensures StrLe(x, s[j]) {
          StrLeTransitive(x, s[0], s[j]);
        }
      }
      [x] + s
    else
      var rest := InsertString(x, s[1..]);
      StrLeTotal(x, s[0]);
      assert forall y :: y in rest ==> StrLe(s[0], y);
      assert NoDuplicates(s) && x !in s ==> s[0] !in rest by {
        if NoDuplicates(s) && x !in s {
          assert s[0] !in s[1..];
        }
      }
      [s[0]] + rest
  }

  /** `sorted(list)` on strings (the order of equal strings is irrelevant:
      they are equal). */
  function SortStrings(s: seq<string>): (r: seq<string>)
    ensures SortedStrings(r)
    ensures |r| == |s|
    ensures forall y :: y in r <==> y in s
    ensures NoDuplicates(s) ==> NoDuplicates(r)
  {
    if s == [] then [] else InsertString(s[0], SortStrings(s[1..]))
  }

  /** `Series.unique()`: the distinct values in order of first appearance. */
  function Unique<T(==,!new)>(s: seq<T>): (r: seq<T>)
    ensures NoDuplicates(r)
    ensures forall y :: y in r <==> y in s
    ensures |r| <= |s|
  {
    if s == [] then []
    else
      var front := Unique(s[..|s| - 1]);
      assert forall y :: y in s <==> y in s[..|s| - 1] || y == s[|s| - 1] by {
        assert s == s[..|s| - 1] + [s[|s| - 1]];
      }
      if s[|s| - 1] in s[..|s| - 1] then front else front + [s[|s| - 1]]
  }

  /** Without duplicates, the length of a list is the number of its distinct elements. */
  lemma {:induction false} DistinctLength<T>(s: seq<T>)
    requires NoDuplicates(s)
    ensures |set x | x in s| == |s|
  {
    if s != [] {
      var tail := s[1..];
      DistinctLength(tail);
      assert (set x | x in s) == {s[0]} + (set x | x in tail);
      assert s[0] !in tail;
    }
  }
}
