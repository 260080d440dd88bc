/** The campaign card (components/campaign-card.tsx): a funding percentage
    computed without a guard on the goal, the link slug built from the title,
    and the heart button's saved flag. */
module CampaignCard {
  import opened Common

  /** A JavaScript number as `Math.round` can return it here: an integer, or
      the infinities and NaN that a zero goal produces. */
  datatype Number = Finite(value: int) | PlusInfinity | MinusInfinity | NaN

  /** `Math.round((raised / goal) * 100)`: nearest integer, halves up; a zero
      goal divides by zero. */
  function Progress(raised: real, goal: real): (p: Number)
    ensures goal != 0.0 ==>
              p.Finite? && p.value as real - 0.5 <= raised / goal * 100.0 < p.value as real + 0.5
    ensures goal == 0.0 ==>
              (raised > 0.0 ==> p == PlusInfinity) && (raised < 0.0 ==> p == MinusInfinity)
              && (raised == 0.0 ==> p == NaN)
  {
    if goal != 0.0 then
      RoundBounds(raised / goal * 100.0);
      Finite(Round(raised / goal * 100.0))
    else if raised > 0.0 then PlusInfinity
    else if raised < 0.0 then MinusInfinity
    else NaN
  }

  /** Nothing raised shows 0 and a reached goal shows 100; neither needs a
      positive goal, only a non-zero one. */
  lemma {:induction false} ProgressEnds(goal: real)
    requires goal != 0.0
    ensures Progress(0.0, goal) == Finite(0)
    ensures Progress(goal, goal) == Finite(100)
  {
    assert goal / goal * 100.0 == 100.0;
  }

  /** The percentage is not capped at 100. */
  lemma {:induction false} ProgressNotCapped(goal: real, k: nat)
    requires goal != 0.0
    ensures Progress(goal * k as real, goal) == Finite(100 * k)
  {
    ScaledPercentage(goal, k);
  }

  // ---------------------------------------------------------------------------
  // Slug

  /** `replace(/ /g, "-")`: only U+0020 is replaced, other white space stays. */
  function Dashes(s: string): (r: string)
    ensures |r| == |s|
    ensures forall i :: 0 <= i < |s| ==> r[i] == (if s[i] == ' ' then '-' else s[i])
  {
    seq(|s|, i requires 0 <= i < |s| => if s[i] == ' ' then '-' else s[i])
  }

  /** The characters `encodeURIComponent` leaves as they are. */
  predicate Unreserved(c: char)
  {
    ('A' <= c <= 'Z') || ('a' <= c <= 'z') || ('0' <= c <= '9')
    || c == '-' || c == '_' || c == '.' || c == '!' || c == '~' || c == '*' || c == '\'' || c == '(' || c == ')'
  }

  /** The value of an upper-case hexadecimal digit. */
  function HexValue(c: char): int
  {
    if '0' <= c <= '9' then c as int - '0' as int else c as int - 'A' as int + 10
  }

  function HexDigit(d: nat): (c: char)
    requires d < 16
    ensures Unreserved(c)
    ensures HexValue(c) == d
  {
    if d < 10 then ('0' as int + d) as char else ('A' as int + d - 10) as char
  }

  /** `%XX` for one byte. */
  function Percent(b: nat): (r: string)
    ensures |r| == 3 && r[0] == '%' && Unreserved(r[1]) && Unreserved(r[2])
    ensures b < 256 ==> HexValue(r[1]) * 16 + HexValue(r[2]) == b
  {
    ['%', HexDigit(b / 16 % 16), HexDigit(b % 16)]
  }

  /** The UTF-8 bytes of a code point: one byte below 0x80; otherwise a lead
      byte whose high bits give the length, then continuation bytes
      10xxxxxx. */
  function Utf8(n: nat): (bytes: seq<nat>)
    requires n < 0x110000
    ensures 1 <= |bytes| <= 4
    ensures n < 0x80 <==> |bytes| == 1
    ensures |bytes| == 1 ==> bytes[0] < 0x80
    ensures |bytes| == 2 <==> 0x80 <= n < 0x800
    ensures |bytes| == 2 ==> 0xC2 <= bytes[0] <= 0xDF
    ensures |bytes| == 3 <==> 0x800 <= n < 0x10000
    ensures |bytes| == 3 ==> 0xE0 <= bytes[0] <= 0xEF
    ensures |bytes| == 4 ==> 0xF0 <= bytes[0] <= 0xF4
    ensures forall i :: 1 <= i < |bytes| ==> 0x80 <= bytes[i] <= 0xBF
  {
    if n < 0x80 then [n]
    else if n < 0x800 then [0xC0 + n / 64, 0x80 + n % 64]
    else if n < 0x10000 then [0xE0 + n / 4096, 0x80 + n / 64 % 64, 0x80 + n % 64]
    else [0xF0 + n / 0x40000, 0x80 + n / 4096 % 64, 0x80 + n / 64 % 64, 0x80 + n % 64]
  }

  function PercentAll(bytes: seq<nat>): (r: string)
    ensures |r| == 3 * |bytes|
    ensures forall i :: 0 <= i < |r| ==> r[i] == '%' || Unreserved(r[i])
  {
    if bytes == [] then [] else Percent(bytes[0]) + PercentAll(bytes[1..])
  }

  /** The code point a UTF-8 sequence of one to four bytes stands for. */
  function Utf8Value(bytes: seq<nat>): int
    requires 1 <= |bytes| <= 4
  {
    if |bytes| == 1 then bytes[0]
    else if |bytes| == 2 then (bytes[0] as int - 0xC0) * 64 + (bytes[1] as int - 0x80)
    else if |bytes| == 3 then (bytes[0] as int - 0xE0) * 4096 + (bytes[1] as int - 0x80) * 64 + (bytes[2] as int - 0x80)
    else (bytes[0] as int - 0xF0) * 0x40000 + (bytes[1] as int - 0x80) * 4096 + (bytes[2] as int - 0x80) * 64 + (bytes[3] as int - 0x80)
  }

  /** Decoding the bytes gives the code point back. */
  lemma Utf8RoundTrip(n: nat)
    requires n < 0x110000
    ensures Utf8Value(Utf8(n)) == n
  {
    var q6, q12 := n / 64, n / 4096;
    assert n == q6 * 64 + n % 64;
    assert q6 == q12 * 64 + q6 % 64;
    assert q12 == n / 0x40000 * 64 + q12 % 64;
    if 0x80 <= n < 0x800 {
      assert Utf8Value(Utf8(n)) == q6 * 64 + n % 64;
    } else if 0x800 <= n < 0x10000 {
      assert Utf8Value(Utf8(n)) == q12 * 4096 + q6 % 64 * 64 + n % 64;
    } else if 0x10000 <= n {
      assert Utf8Value(Utf8(n)) == n / 0x40000 * 0x40000 + q12 % 64 * 4096 + q6 % 64 * 64 + n % 64;
    }
  }

  /** A slug character as `encodeURIComponent` writes it. */
  predicate UriChar(c: char)
  {
    c == '%' || Unreserved(c)
  }

  /** `encodeURIComponent`: unreserved characters as they are, every other
      code point as the percent-escapes of its UTF-8 bytes. */
  function Encode(s: string): (r: string)
    ensures |r| >= |s|
    ensures forall i :: 0 <= i < |r| ==> UriChar(r[i])
    ensures (forall i :: 0 <= i < |s| ==> Unreserved(s[i])) ==> r == s
  {
    if s == [] then []
    else
      var head := if Unreserved(s[0]) then [s[0]] else PercentAll(Utf8(s[0] as nat));
      var rest := Encode(s[1..]);
      assert forall i :: 0 <= i < |head + rest| ==> (head + rest)[i] == (if i < |head| then head[i] else rest[i - |head|]);
      head + rest
  }

  /** Encoding works character by character. */
  lemma {:induction false} EncodeAppend(a: string, b: string)
    ensures Encode(a + b) == Encode(a) + Encode(b)
    decreases |a|
  {
    if a == [] {
      assert a + b == b;
    } else {
      assert (a + b)[0] == a[0] && (a + b)[1..] == a[1..] + b;
      EncodeAppend(a[1..], b);
    }
  }

  /** One character: kept when unreserved, otherwise the percent-escapes of
      its UTF-8 bytes. */
  lemma EncodeChar(c: char)
    ensures Unreserved(c) ==> Encode([c]) == [c]
    ensures !Unreserved(c) ==> Encode([c]) == PercentAll(Utf8(c as nat))
  {
    assert [c][1..] == [];
  }

  /** The link slug. */
  function Slug(title: string): (r: string)
    ensures forall i :: 0 <= i < |r| ==> UriChar(r[i])
  {
    Encode(Dashes(LowerStr(title)))
  }

  /** The slug of a title is the slugs of its characters, one after another. */
  lemma SlugAppend(a: string, b: string)
    ensures Slug(a + b) == Slug(a) + Slug(b)
  {
    assert LowerStr(a + b) == LowerStr(a) + LowerStr(b);
    assert Dashes(LowerStr(a + b)) == Dashes(LowerStr(a)) + Dashes(LowerStr(b));
    EncodeAppend(Dashes(LowerStr(a)), Dashes(LowerStr(b)));
  }

  /** One character of the title: a space becomes '-', an unreserved
      character is lower-cased, and anything else becomes the percent-escapes
      of its UTF-8 bytes. */
  lemma SlugChar(c: char)
    ensures c == ' ' ==> Slug([c]) == "-"
    ensures Unreserved(c) ==> Slug([c]) == [Lower(c)]
    ensures c != ' ' && !Unreserved(c) ==> Slug([c]) == PercentAll(Utf8(c as nat))
  {
    assert LowerStr([c]) == [Lower(c)];
    var d := if Lower(c) == ' ' then '-' else Lower(c);
    assert Dashes([Lower(c)]) == [d];
    EncodeChar(d);
  }

  /** No slug contains a literal space, or any other white space. */
  lemma {:induction false} SlugHasNoSpace(title: string)
    ensures NoSpace(Slug(title))
  {
    var r := Slug(title);
    forall i | 0 <= i < |r|
      ensures !IsSpace(r[i])
    {
      assert UriChar(r[i]);
    }
  }

  /** A title made of letters, digits, spaces and the unreserved marks gives
      the lower-cased title with each space turned into a dash. */
  lemma {:induction false} PlainTitleSlug(title: string)
    requires forall i :: 0 <= i < |title| ==> title[i] == ' ' || Unreserved(title[i])
    ensures Slug(title) == Dashes(LowerStr(title))
    ensures |Slug(title)| == |title|
  {
    var d := Dashes(LowerStr(title));
    forall i | 0 <= i < |d|
      ensures Unreserved(d[i])
    {
      assert title[i] == ' ' || Unreserved(title[i]);
    }
  }

  // ---------------------------------------------------------------------------
  // Saved flag

  class Card {
    var isSaved: bool

    constructor()
      ensures !isSaved
    {
      isSaved := false;
    }

    /** The heart button: each click flips the flag, so two clicks restore it. */
    method ToggleSaved()
      modifies this
      ensures isSaved == !old(isSaved)
    {
      isSaved := !isSaved;
    }
  }
}
