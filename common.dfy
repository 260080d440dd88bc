/** Shared vocabulary of the model: optional values, the JavaScript string
    operations the handlers and pages use (`trim`, `toLowerCase`, `includes`,
    `startsWith`, `split`, `join`), `Math.round`, and list filters. */
module Common {

  datatype Option<+T> = None | Some(value: T)

  /** A computation that either yields a value or fails with an error (a
      JavaScript `throw`). */
  datatype Result<+T, +E> = Ok(value: T) | Err(error: E)

  // ---------------------------------------------------------------------------
  // Characters

  /** The characters JavaScript's `\s` class and `String.prototype.trim` treat
      as white space (ECMAScript WhiteSpace and LineTerminator code points). */
  predicate IsSpace(c: char)
  {
    var n := c as int;
    (9 <= n <= 13) || n == 32 || n == 0xA0 || n == 0x1680 || (0x2000 <= n <= 0x200A)
    || n == 0x2028 || n == 0x2029 || n == 0x202F || n == 0x205F || n == 0x3000 || n == 0xFEFF
  }

  /** `toLowerCase` on one character; only the ASCII letters are mapped. */
  function Lower(c: char): char
  {
    if 'A' <= c <= 'Z' then (c as int + 32) as char else c
  }

  /** `toUpperCase` on one character; only the ASCII letters are mapped. */
  function Upper(c: char): char
  {
    if 'a' <= c <= 'z' then (c as int - 32) as char else c
  }

  function LowerStr(s: string): string
  {
    seq(|s|, i requires 0 <= i < |s| => Lower(s[i]))
  }

  function UpperStr(s: string): string
  {
    seq(|s|, i requires 0 <= i < |s| => Upper(s[i]))
  }

  /** JavaScript's `length`: code points above U+FFFF take two UTF-16 units. */
  function Utf16Length(s: string): (n: nat)
    ensures |s| <= n <= 2 * |s|
  {
    if s == [] then 0 else (if s[0] as int >= 0x10000 then 2 else 1) + Utf16Length(s[1..])
  }

  predicate NoSpace(s: string)
  {
    forall i :: 0 <= i < |s| ==> !IsSpace(s[i])
  }

  // ---------------------------------------------------------------------------
  // trim

  function TrimStart(s: string): string
    decreases |s|
  {
    if s != [] && IsSpace(s[0]) then TrimStart(s[1..]) else s
  }

  function TrimEnd(s: string): string
    decreases |s|
  {
    if s != [] && IsSpace(s[|s| - 1]) then TrimEnd(s[..|s| - 1]) else s
  }

  /** `String.prototype.trim`. */
  function Trim(s: string): string
  {
    TrimEnd(TrimStart(s))
  }

  predicate IsTrimmed(s: string)
  {
    s == [] || (!IsSpace(s[0]) && !IsSpace(s[|s| - 1]))
  }

  lemma {:induction false} TrimStartShape(s: string)
    ensures TrimStart(s) == [] || !IsSpace(TrimStart(s)[0])
    ensures exists k :: 0 <= k <= |s| && TrimStart(s) == s[k..]
    decreases |s|
  {
    if s != [] && IsSpace(s[0]) {
      TrimStartShape(s[1..]);
      var k :| 0 <= k <= |s[1..]| && TrimStart(s[1..]) == s[1..][k..];
      assert TrimStart(s) == s[k + 1..];
    } else {
      assert TrimStart(s) == s[0..];
    }
  }

  lemma {:induction false} TrimEndShape(s: string)
    ensures TrimEnd(s) == [] || !IsSpace(TrimEnd(s)[|TrimEnd(s)| - 1])
    ensures exists k :: 0 <= k <= |s| && TrimEnd(s) == s[..k]
    decreases |s|
  {
    if s != [] && IsSpace(s[|s| - 1]) {
      TrimEndShape(s[..|s| - 1]);
      var k :| 0 <= k <= |s| - 1 && TrimEnd(s[..|s| - 1]) == s[..|s| - 1][..k];
      assert TrimEnd(s) == s[..k];
    } else {
      assert TrimEnd(s) == s[..|s|];
    }
  }

  /** A trimmed string starts and ends with a non-space character. */
  lemma TrimIsTrimmed(s: string)
    ensures IsTrimmed(Trim(s))
  {
    var t := TrimStart(s);
    TrimStartShape(s);
    TrimEndShape(t);
    var k :| 0 <= k <= |t| && TrimEnd(t) == t[..k];
    if TrimEnd(t) != [] {
      assert TrimEnd(t)[0] == t[0];
    }
  }

  lemma {:induction false} TrimmedFixed(s: string)
    requires IsTrimmed(s)
    ensures Trim(s) == s
  {
    assert TrimStart(s) == s;
    assert TrimEnd(s) == s;
  }

  /** Trimming is idempotent: `x.trim().trim() == x.trim()`. */
  lemma TrimIdempotent(s: string)
    ensures Trim(Trim(s)) == Trim(s)
  {
    TrimIsTrimmed(s);
    TrimmedFixed(Trim(s));
  }

  // ---------------------------------------------------------------------------
  // includes / startsWith

  /** `s.includes(q)`: q occurs in s at some position. */
  predicate IsSubstring(q: string, s: string)
  {
    exists i :: 0 <= i <= |s| && OccursAt(q, s, i)
  }

  predicate OccursAt(q: string, s: string, i: int)
  {
    0 <= i && i + |q| <= |s| && s[i..i + |q|] == q
  }

  /** The empty string is included in every string (JavaScript's `"abc".includes("")`). */
  lemma EmptyIsSubstring(s: string)
    ensures IsSubstring("", s)
  {
    assert OccursAt("", s, 0);
  }

  /** `field.toLowerCase().includes(query.toLowerCase())`. */
  predicate IncludesIgnoringCase(field: string, query: string)
  {
    IsSubstring(LowerStr(query), LowerStr(field))
  }

  /** Every field includes the empty query. */
  lemma EmptyQueryIncluded(field: string)
    ensures IncludesIgnoringCase(field, "")
  {
    assert LowerStr("") == "";
    EmptyIsSubstring(LowerStr(field));
  }

  predicate StartsWith(s: string, prefix: string)
  {
    |prefix| <= |s| && s[..|prefix|] == prefix
  }

  // ---------------------------------------------------------------------------
  // split / join

  /** `s.split(sep)` for a one-character separator: the pieces between
      separators, empty pieces included; a string without the separator gives
      one piece. */
  function Split(s: string, sep: char): (r: seq<string>)
    ensures |r| >= 1
    decreases |s|
  {
    if s == [] then [""]
    else
      var rest := Split(s[1..], sep);
      if s[0] == sep then [""] + rest else [[s[0]] + rest[0]] + rest[1..]
  }

  /** `xs.join(sep)`. */
  function Join(xs: seq<string>, sep: string): string
    decreases |xs|
  {
    if |xs| == 0 then ""
    else if |xs| == 1 then xs[0]
    else xs[0] + sep + Join(xs[1..], sep)
  }

  lemma {:induction false} SplitNoSeparator(a: string, sep: char)
    requires sep !in a
    ensures Split(a, sep) == [a]
    decreases |a|
  {
    if a != [] {
      SplitNoSeparator(a[1..], sep);
      assert [a[0]] + a[1..] == a;
    }
  }

  lemma {:induction false} SplitAfterPiece(a: string, sep: char, b: string)
    requires sep !in a
    ensures Split(a + [sep] + b, sep) == [a] + Split(b, sep)
    decreases |a|
  {
    if a == [] {
      assert a + [sep] + b == [sep] + b;
      assert ([sep] + b)[1..] == b;
    } else {
      var s := a + [sep] + b;
      assert s[0] == a[0];
      assert s[1..] == a[1..] + [sep] + b;
      SplitAfterPiece(a[1..], sep, b);
      assert [a[0]] + a[1..] == a;
    }
  }

  /** Splitting a join on a separator that occurs in no piece gives the pieces back. */
  lemma {:induction false} SplitJoin(xs: seq<string>, sep: char)
    requires |xs| >= 1
    requires forall i :: 0 <= i < |xs| ==> sep !in xs[i]
    ensures Split(Join(xs, [sep]), sep) == xs
    decreases |xs|
  {
    if |xs| == 1 {
      SplitNoSeparator(xs[0], sep);
    } else {
      SplitJoin(xs[1..], sep);
      SplitAfterPiece(xs[0], sep, Join(xs[1..], [sep]));
      assert [xs[0]] + xs[1..] == xs;
    }
  }

  // ---------------------------------------------------------------------------
  // Numbers

  /** `Math.round` on an exact number: the nearest integer, halves rounded up. */
  function Round(x: real): int
  {
    (x + 0.5).Floor
  }

  lemma RoundBounds(x: real)
    ensures x - 0.5 < Round(x) as real <= x + 0.5
  {
  }

  /** A stored string JavaScript treats as true: present and non-empty
      (`!s` holds for null and for ""). */
  predicate Truthy(s: Option<string>)
  {
    s.Some? && s.value != ""
  }

  function SumReals(s: seq<real>): real
  {
    if s == [] then 0.0 else s[0] + SumReals(s[1..])
  }

  /** Decimal digits of a natural number, most significant first. */
  function Digits(n: nat): (r: string)
    ensures |r| >= 1
    ensures n >= 10 ==> |r| >= 2
  {
    if n < 10 then [DigitChar(n)] else Digits(n / 10) + [DigitChar(n % 10)]
  }

  function DigitChar(d: nat): char
    requires d < 10
  {
    ('0' as int + d) as char
  }

  /** Different numbers have different decimal spellings. */
  lemma {:induction false} DigitsInjective(a: nat, b: nat)
    requires Digits(a) == Digits(b)
    ensures a == b
    decreases a
  {
    if a >= 10 && b >= 10 {
      var da, db := Digits(a), Digits(b);
      assert da[..|da| - 1] == Digits(a / 10);
      assert db[..|db| - 1] == Digits(b / 10);
      DigitsInjective(a / 10, b / 10);
      assert DigitChar(a % 10) == da[|da| - 1];
    }
  }

  // ---------------------------------------------------------------------------
  // Lists

  function Filter<T(!new)>(s: seq<T>, p: T -> bool): (r: seq<T>)
    ensures |r| <= |s|
    ensures forall x :: x in r <==> x in s && p(x)
    ensures IsSubsequence(r, s)
    ensures forall x {:trigger multiset(r)[x]} :: multiset(r)[x] == if p(x) then multiset(s)[x] else 0
  {
    if s == [] then []
    else
      assert s == [s[0]] + s[1..];
      if p(s[0]) then [s[0]] + Filter(s[1..], p)
      else
        var r := Filter(s[1..], p);
        assert r != [] ==> r[0] in r && r[0] != s[0];
        r
  }

  /** `r` is obtained from `s` by deleting elements (order preserved). */
  predicate IsSubsequence<T(==)>(r: seq<T>, s: seq<T>)
    decreases |s|
  {
    if r == [] then true
    else if s == [] then false
    else if r[0] == s[0] then IsSubsequence(r[1..], s[1..])
    else IsSubsequence(r, s[1..])
  }

  /** A filter whose test passes on every element keeps the whole list. */
  lemma FilterHolds<T(!new)>(s: seq<T>, p: T -> bool)
    ensures forall i :: 0 <= i < |Filter(s, p)| ==> p(Filter(s, p)[i])
  {
    var r := Filter(s, p);
    forall i | 0 <= i < |r|
      ensures p(r[i])
    {
      assert r[i] in r;
    }
  }

  /** Filtering a list extended by one element extends the filtered list by
      that element exactly when the test passes on it. */
  lemma {:induction false} FilterAppend<T(!new)>(s: seq<T>, x: T, p: T -> bool)
    ensures Filter(s + [x], p) == Filter(s, p) + (if p(x) then [x] else [])
    decreases |s|
  {
    var t := s + [x];
    if s == [] {
      assert t == [x];
      FilterCons(t, p);
      assert t[1..] == [];
    } else {
      assert t[0] == s[0] && t[1..] == s[1..] + [x];
      FilterAppend(s[1..], x, p);
      FilterCons(t, p);
      FilterCons(s, p);
    }
  }

  /** One step of the filter: the head if it passes, then the filtered tail. */
  lemma FilterCons<T(!new)>(s: seq<T>, p: T -> bool)
    requires s != []
    ensures Filter(s, p) == (if p(s[0]) then [s[0]] else []) + Filter(s[1..], p)
  {
  }

  lemma {:induction false} FilterAll<T(!new)>(s: seq<T>, p: T -> bool)
    requires forall x :: x in s ==> p(x)
    ensures Filter(s, p) == s
  {
    if s != [] {
      FilterAll(s[1..], p);
    }
  }

  /** An order-preserving sub-list takes no element more often than the list has it. */
  lemma {:induction false} SubsequenceMultiset<T>(r: seq<T>, s: seq<T>)
    requires IsSubsequence(r, s)
    ensures multiset(r) <= multiset(s)
    decreases |s|
  {
    if r == [] {
    } else if s == [] {
    } else if r[0] == s[0] {
      SubsequenceMultiset(r[1..], s[1..]);
      assert r == [r[0]] + r[1..];
      assert s == [s[0]] + s[1..];
    } else {
      SubsequenceMultiset(r, s[1..]);
      assert s == [s[0]] + s[1..];
    }
  }

  /** k times a non-zero whole is 100·k per cent of it. */
  lemma ScaledPercentage(whole: real, k: nat)
    requires whole != 0.0
    ensures whole * k as real / whole * 100.0 == (100 * k) as real
  {
    assert whole * k as real / whole == k as real;
  }

  /** The last element of a non-empty list. */
  function Last<T>(s: seq<T>): T
    requires |s| > 0
  {
    s[|s| - 1]
  }

  /** `s.slice(0, n)`. */
  function Take<T>(s: seq<T>, n: nat): seq<T>
  {
    if n <= |s| then s[..n] else s
  }

  function Count<T(!new)>(s: seq<T>, p: T -> bool): nat
  {
    |Filter(s, p)|
  }

  /** The distinct elements of a list (`new Set(list)`). */
  function Distinct<T>(s: seq<T>): set<T>
  {
    set x | x in s
  }

  lemma {:induction false} DistinctBound<T>(s: seq<T>)
    ensures |Distinct(s)| <= |s|
  {
    if s != [] {
      DistinctBound(s[1..]);
      assert Distinct(s) == Distinct(s[1..]) + {s[0]};
    }
  }

  /** One more element adds one distinct element exactly when it is new. */
  lemma DistinctAppend<T>(s: seq<T>, x: T)
    ensures Distinct(s + [x]) == Distinct(s) + {x}
    ensures |Distinct(s + [x])| == |Distinct(s)| + if x in s then 0 else 1
  {
    assert forall y :: y in s + [x] <==> y in s || y == x;
    assert x in s <==> x in Distinct(s);
  }

  /** Every element of the list for which `m` holds replaced by `f` of it
      (`list.map(x => m(x) ? f(x) : x)`). */
  function UpdateWhere<T>(s: seq<T>, m: T -> bool, f: T -> T): seq<T>
  {
    seq(|s|, i requires 0 <= i < |s| => if m(s[i]) then f(s[i]) else s[i])
  }

  /** Every element of the list occurs in it once. */
  predicate NoDuplicates<T(==)>(s: seq<T>)
  {
    forall i, j :: 0 <= i < j < |s| ==> s[i] != s[j]
  }
}
