/** JavaScript values and string operations as the front end uses them:
    optional values, truthiness, `String.prototype.trim`, `includes`,
    `replace` with a string pattern, `Array.prototype.filter` and `splice(i, 1)`. */
module JsText {

  /** A value that may be null or undefined. */
  datatype Option<+T> = None | Some(value: T)

  /** Truthiness of an optional string: null, undefined and "" are falsy. */
  predicate Truthy(o: Option<string>)
  {
    o.Some? && o.value != ""
  }

  /** `x || ""` on an optional string. */
  function OrEmpty(o: Option<string>): string
  {
    if Truthy(o) then o.value else ""
  }

  /** `x || d` on an optional string. */
  function OrElse(o: Option<string>, d: string): (r: string)
    ensures Truthy(o) ==> r == o.value
    ensures !Truthy(o) ==> r == d
  {
    if Truthy(o) then o.value else d
  }

  /** The characters matched by `\s` in a regular expression, which are also
      exactly those `trim()` removes: WhiteSpace and LineTerminator of ECMA-262. */
  predicate IsSpace(c: char)
  {
    || c == ' ' || c == '\t' || c == '\n' || c == '\r'
    || c == '\U{000B}' || c == '\U{000C}'
    || c == '\U{00A0}' || c == '\U{1680}'
    || ('\U{2000}' <= c <= '\U{200A}')
    || c == '\U{2028}' || c == '\U{2029}' || c == '\U{202F}'
    || c == '\U{205F}' || c == '\U{3000}' || c == '\U{FEFF}'
  }

  /** Every character is white space (so `s.trim() === ""`). */
  predicate IsBlank(s: string)
  {
    forall i :: 0 <= i < |s| ==> IsSpace(s[i])
  }

  function TrimStart(s: string): (r: string)
    ensures |r| <= |s| && r == s[|s| - |r|..]
    ensures r == [] || !IsSpace(r[0])
    ensures forall i :: 0 <= i < |s| - |r| ==> IsSpace(s[i])
  {
    if s != [] && IsSpace(s[0]) then TrimStart(s[1..]) else s
  }

  function TrimEnd(s: string): (r: string)
    ensures |r| <= |s| && r == s[..|r|]
    ensures r == [] || !IsSpace(r[|r| - 1])
    ensures forall i :: |r| <= i < |s| ==> IsSpace(s[i])
  {
    if s != [] && IsSpace(s[|s| - 1]) then TrimEnd(s[..|s| - 1]) else s
  }

  /** `s.trim()`: the longest infix of `s` that neither starts nor ends
      with white space; empty exactly when `s` is blank. */
  function Trim(s: string): (r: string)
    ensures |r| <= |s|
    ensures r == [] <==> IsBlank(s)
    ensures r == [] || (!IsSpace(r[0]) && !IsSpace(r[|r| - 1]))
  {
    TrimEnd(TrimStart(s))
  }

  /** Trimming twice is trimming once. */
  lemma TrimIdempotent(s: string)
    ensures Trim(Trim(s)) == Trim(s)
  {
    var r := Trim(s);
    if r != [] {
      assert TrimStart(r) == r;
      assert TrimEnd(r) == r;
    }
  }

  /** `s.toLowerCase()` restricted to ASCII letters. */
  function LowerChar(c: char): char
  {
    if 'A' <= c <= 'Z' then (c as int + 32) as char else c
  }

  function ToLower(s: string): (r: string)
    ensures |r| == |s|
    ensures forall i :: 0 <= i < |s| ==> r[i] == LowerChar(s[i])
  {
    if s == [] then [] else [LowerChar(s[0])] + ToLower(s[1..])
  }

  /** `pat` occurs in `s` starting at index `j`. */
  predicate OccursAt(s: string, pat: string, j: int)
  {
    0 <= j && j + |pat| <= |s| && s[j..j + |pat|] == pat
  }

  /** The first index at or after `k` where `pat` occurs in `s`. */
  function IndexOfFrom(s: string, pat: string, k: nat): (r: Option<nat>)
    requires k <= |s|
    decreases |s| - k
    ensures r.Some? ==> k <= r.value && OccursAt(s, pat, r.value)
    ensures r.Some? ==> forall j :: k <= j < r.value ==> !OccursAt(s, pat, j)
    ensures r.None? ==> forall j :: k <= j ==> !OccursAt(s, pat, j)
  {
    if k + |pat| > |s| then None
    else if s[k..k + |pat|] == pat then Some(k)
    else IndexOfFrom(s, pat, k + 1)
  }

  /** `s.indexOf(pat)`, with -1 rendered as None. */
  function IndexOf(s: string, pat: string): Option<nat>
  {
    IndexOfFrom(s, pat, 0)
  }

  /** `s.includes(pat)`. */
  predicate Contains(s: string, pat: string)
  {
    IndexOf(s, pat).Some?
  }

  lemma ContainsIff(s: string, pat: string)
    ensures Contains(s, pat) <==> exists j :: OccursAt(s, pat, j)
  {
  }

  /** `s.replace(pat, rep)` with a string pattern: only the first occurrence
      is replaced (the replacement holds no `$` patterns). */
  function ReplaceFirst(s: string, pat: string, rep: string): (r: string)
    ensures (forall j :: !OccursAt(s, pat, j)) ==> r == s
    ensures forall i :: IndexOf(s, pat) == Some(i) ==>
              r == s[..i] + rep + s[i + |pat|..]
  {
    match IndexOf(s, pat)
    case None => s
    case Some(i) => s[..i] + rep + s[i + |pat|..]
  }

  /** `a` is a subsequence of `b`: its elements appear in `b` in the same order. */
  ghost predicate IsSubsequence<T>(a: seq<T>, b: seq<T>)
    decreases |b|
  {
    a == [] ||
    (b != [] && ((a[0] == b[0] && IsSubsequence(a[1..], b[1..])) || IsSubsequence(a, b[1..])))
  }

  /** Every sequence is a subsequence of itself. */
  lemma {:induction false} SubsequenceReflexive<T>(s: seq<T>)
    ensures IsSubsequence(s, s)
  {
    if s != [] {
      SubsequenceReflexive(s[1..]);
    }
  }

  /** `s.filter(p)`: keeps exactly the elements satisfying `p`, in order. */
  function FilterBy<T(==)>(s: seq<T>, p: T -> bool): (r: seq<T>)
    ensures |r| <= |s|
    ensures forall i :: 0 <= i < |r| ==> r[i] in s && p(r[i])
    ensures forall i :: 0 <= i < |s| && p(s[i]) ==> s[i] in r
    ensures IsSubsequence(r, s)
  {
    if s == [] then []
    else if p(s[0]) then [s[0]] + FilterBy(s[1..], p)
    else FilterBy(s[1..], p)
  }

  /** The filter keeps each passing element as many times as it occurs, and
      no failing one. */
  lemma {:induction false} FilterByCounts<T>(s: seq<T>, p: T -> bool)
    ensures forall x :: multiset(FilterBy(s, p))[x] == if p(x) then multiset(s)[x] else 0
  {
    if s != [] {
      FilterByCounts(s[1..], p);
      assert s == [s[0]] + s[1..];
    }
  }

  /** Filtering a sequence all of whose elements pass changes nothing. */
  lemma {:induction false} FilterByKeepsAll<T>(s: seq<T>, p: T -> bool)
    requires forall i :: 0 <= i < |s| ==> p(s[i])
    ensures FilterBy(s, p) == s
  {
    if s != [] {
      FilterByKeepsAll(s[1..], p);
    }
  }

  /** The first `Some` among `f` of the elements, in order: a loop over
      `s` that returns at the first element `f` reports on. */
  function FirstSome<T, U>(s: seq<T>, f: T -> Option<U>): Option<U>
  {
    if s == [] then None
    else if f(s[0]).Some? then f(s[0])
    else FirstSome(s[1..], f)
  }

  /** Nothing is found exactly when `f` reports on no element. */
  lemma {:induction false} FirstSomeNone<T, U>(s: seq<T>, f: T -> Option<U>)
    ensures FirstSome(s, f).None? <==> forall i :: 0 <= i < |s| ==> f(s[i]).None?
  {
    if s != [] {
      var tail := s[1..];
      FirstSomeNone(tail, f);
      if f(s[0]).None? {
        if FirstSome(tail, f).None? {
          forall i | 0 <= i < |s|
            ensures f(s[i]).None?
          {
            if i > 0 {
              assert s[i] == tail[i - 1];
            }
          }
        } else {
          var k :| 0 <= k < |tail| && f(tail[k]).Some?;
          assert s[k + 1] == tail[k];
        }
      }
    }
  }

  /** What is found is `f` of some element, and `f` reports on no earlier one. */
  lemma {:induction false} FirstSomeIsFirst<T, U>(s: seq<T>, f: T -> Option<U>)
    requires FirstSome(s, f).Some?
    ensures exists i :: 0 <= i < |s| && FirstSome(s, f) == f(s[i]) &&
                        forall k :: 0 <= k < i ==> f(s[k]).None?
  {
    if f(s[0]).None? {
      var tail := s[1..];
      FirstSomeIsFirst(tail, f);
      var i :| 0 <= i < |tail| && FirstSome(tail, f) == f(tail[i]) &&
               forall k :: 0 <= k < i ==> f(tail[k]).None?;
      assert tail[i] == s[i + 1];
      forall k | 0 <= k < i + 1
        ensures f(s[k]).None?
      {
        if k > 0 {
          assert s[k] == tail[k - 1];
        }
      }
      assert FirstSome(s, f) == f(s[i + 1]);
    } else {
      assert FirstSome(s, f) == f(s[0]);
    }
  }

  /** `copy.splice(i, 1)` on a copy of `s`: removes index `i` if it exists. */
  function RemoveAt<T>(s: seq<T>, i: nat): (r: seq<T>)
    ensures i < |s| ==> |r| == |s| - 1
    ensures i < |s| ==> forall j :: 0 <= j < i ==> r[j] == s[j]
    ensures i < |s| ==> forall j :: i <= j < |r| ==> r[j] == s[j + 1]
    ensures i >= |s| ==> r == s
  {
    if i < |s| then s[..i] + s[i + 1..] else s
  }

  /** `s.length`: the number of UTF-16 code units, so a character outside
      the Basic Multilingual Plane counts twice. */
  function Utf16Length(s: string): (n: nat)
    ensures |s| <= n <= 2 * |s|
    ensures (forall i :: 0 <= i < |s| ==> s[i] as int < 0x1_0000) ==> n == |s|
  {
    if s == [] then 0 else (if s[0] as int < 0x1_0000 then 1 else 2) + Utf16Length(s[1..])
  }

  /** Decimal rendering of a natural number, as in a template literal. */
  function DecimalDigit(d: nat): char
    requires d < 10
  {
    ('0' as int + d) as char
  }

  function NatToDecimal(n: nat): (r: string)
    ensures r != []
    ensures forall i :: 0 <= i < |r| ==> '0' <= r[i] <= '9'
  {
    if n < 10 then [DecimalDigit(n)] else NatToDecimal(n / 10) + [DecimalDigit(n % 10)]
  }

  /** The value of a string of decimal digits. */
  function DecimalValue(s: string): nat
    requires forall i :: 0 <= i < |s| ==> '0' <= s[i] <= '9'
  {
    if s == [] then 0
    else 10 * DecimalValue(s[..|s| - 1]) + (s[|s| - 1] as int - '0' as int)
  }

  /** Rendering a number and reading it back gives the number. */
  lemma {:induction false} DecimalRoundTrip(n: nat)
    ensures DecimalValue(NatToDecimal(n)) == n
  {
    if n >= 10 {
      DecimalRoundTrip(n / 10);
      var r := NatToDecimal(n);
      assert r[..|r| - 1] == NatToDecimal(n / 10);
    }
  }
}
