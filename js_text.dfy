/**
 * The JavaScript string operations the site's logic relies on, stated once:
 * `trim`, ASCII `toLowerCase`, `includes`/`startsWith`/`endsWith`,
 * `split`/`join` with a literal separator, number-to-string conversion,
 * `padStart` and `encodeURIComponent`.
 *
 * A Dafny `char` is a Unicode scalar value; JavaScript strings are UTF-16.
 * The two agree on every character of the Basic Multilingual Plane.
 */
module JsText {
  import opened Wrappers

  // ---------------------------------------------------------------------------
  // Whitespace and trim
  // ---------------------------------------------------------------------------

  /** The ECMAScript LineTerminator code points. */
  predicate IsLineTerminator(c: char) {
    c == '\n' || c == '\r' || c == '\U{2028}' || c == '\U{2029}'
  }

  /** ECMAScript WhiteSpace or LineTerminator: what `trim` removes and what `\s` matches. */
  predicate IsWhiteSpace(c: char) {
    || IsLineTerminator(c)
    || c == '\t' || c == '\U{000B}' || c == '\U{000C}' || c == ' '
    || c == '\U{00A0}' || c == '\U{FEFF}' || c == '\U{1680}'
    || ('\U{2000}' <= c <= '\U{200A}')
    || c == '\U{202F}' || c == '\U{205F}' || c == '\U{3000}'
  }

  predicate AllWhiteSpace(s: string) {
    forall i :: 0 <= i < |s| ==> IsWhiteSpace(s[i])
  }

  /** `String.prototype.trimStart`: drop the leading whitespace. */
  function TrimStart(s: string): (r: string)
    ensures |r| <= |s| && r == s[|s| - |r|..]
    ensures forall i :: 0 <= i < |s| - |r| ==> IsWhiteSpace(s[i])
    ensures r == [] || !IsWhiteSpace(r[0])
  {
    if s != [] && IsWhiteSpace(s[0]) then TrimStart(s[1..]) else s
  }

  /** `String.prototype.trimEnd`: drop the trailing whitespace. */
  function TrimEnd(s: string): (r: string)
    ensures |r| <= |s| && r == s[..|r|]
    ensures forall i :: |r| <= i < |s| ==> IsWhiteSpace(s[i])
    ensures r == [] || !IsWhiteSpace(r[|r| - 1])
  {
    if s != [] && IsWhiteSpace(s[|s| - 1]) then TrimEnd(s[..|s| - 1]) else s
  }

  /** `String.prototype.trim`. */
  function Trim(s: string): string {
    TrimEnd(TrimStart(s))
  }

  /** A string without leading or trailing whitespace trims to itself. */
  lemma TrimUnpadded(s: string)
    requires s != [] ==> !IsWhiteSpace(s[0]) && !IsWhiteSpace(s[|s| - 1])
    ensures Trim(s) == s
  {
  }

  /** A string trims to nothing exactly when every character of it is whitespace. */
  lemma TrimEmptyIffAllWhiteSpace(s: string)
    ensures Trim(s) == [] <==> AllWhiteSpace(s)
  {
    var t := TrimStart(s);
    if Trim(s) != [] && t != [] {
      assert t[0] == s[|s| - |t|];
    }
  }

  // ---------------------------------------------------------------------------
  // Case
  // ---------------------------------------------------------------------------

  /** `toLowerCase` restricted to the ASCII letters. */
  function LowerChar(c: char): char {
    if 'A' <= c <= 'Z' then (c as int + 32) as char else c
  }

  function Lower(s: string): (r: string)
    ensures |r| == |s|
    ensures forall i :: 0 <= i < |s| ==> r[i] == LowerChar(s[i])
  {
    seq(|s|, i requires 0 <= i < |s| => LowerChar(s[i]))
  }

  predicate IsAsciiUpper(c: char) { 'A' <= c <= 'Z' }

  /** A lower-cased string has no ASCII capital left. */
  lemma LowerHasNoCapitals(s: string)
    ensures forall i :: 0 <= i < |Lower(s)| ==> !IsAsciiUpper(Lower(s)[i])
  {
  }

  // ---------------------------------------------------------------------------
  // Substrings
  // ---------------------------------------------------------------------------

  /** `p` occurs in `s` at index `i`. */
  predicate MatchAt<T(==)>(s: seq<T>, p: seq<T>, i: int) {
    0 <= i && i + |p| <= |s| && s[i..i + |p|] == p
  }

  /** `s.includes(p)`. */
  predicate Contains<T(==)>(s: seq<T>, p: seq<T>) {
    exists i | 0 <= i <= |s| - |p| :: MatchAt(s, p, i)
  }

  /** `s.startsWith(p)`. */
  predicate StartsWith<T(==)>(s: seq<T>, p: seq<T>) {
    |p| <= |s| && s[..|p|] == p
  }

  /** `s.endsWith(p)`. */
  predicate EndsWith<T(==)>(s: seq<T>, p: seq<T>) {
    |p| <= |s| && s[|s| - |p|..] == p
  }

  /** The first index `>= k` at which `p` occurs in `s` (`s.indexOf(p, k)`). */
  function FindFrom<T(==)>(s: seq<T>, p: seq<T>, k: nat): (r: Option<nat>)
    requires |p| > 0
    ensures r.Some? ==> k <= r.value && MatchAt(s, p, r.value)
    ensures r.Some? ==> forall j :: k <= j < r.value ==> !MatchAt(s, p, j)
    ensures r.None? ==> forall j :: k <= j ==> !MatchAt(s, p, j)
    decreases |s| - k
  {
    if k + |p| > |s| then None
    else if s[k..k + |p|] == p then Some(k)
    else FindFrom(s, p, k + 1)
  }

  /** `Contains` is decided by the search. */
  lemma ContainsIffFound<T>(s: seq<T>, p: seq<T>)
    requires |p| > 0
    ensures Contains(s, p) <==> FindFrom(s, p, 0).Some?
  {
  }

  /** An occurrence in a suffix is an occurrence in the whole. */
  lemma ContainsSuffix<T>(s: seq<T>, k: nat, p: seq<T>)
    requires k <= |s| && Contains(s[k..], p)
    ensures Contains(s, p)
  {
    var i :| 0 <= i <= |s[k..]| - |p| && MatchAt(s[k..], p, i);
    assert s[k + i..k + i + |p|] == s[k..][i..i + |p|];
    assert MatchAt(s, p, k + i);
  }

  // ---------------------------------------------------------------------------
  // split / join
  // ---------------------------------------------------------------------------

  /** `s.split(sep)` for a non-empty literal separator: pieces between
      non-overlapping occurrences found left to right. */
  function Split<T(==)>(s: seq<T>, sep: seq<T>): (r: seq<seq<T>>)
    requires |sep| > 0
    ensures |r| >= 1
    decreases |s|
  {
    var f := FindFrom(s, sep, 0);
    if f.None? then [s] else [s[..f.value]] + Split(s[f.value + |sep|..], sep)
  }

  /** `xs.join(sep)`. */
  function Join<T>(xs: seq<seq<T>>, sep: seq<T>): seq<T>
    decreases |xs|
  {
    if |xs| == 0 then []
    else if |xs| == 1 then xs[0]
    else xs[0] + sep + Join(xs[1..], sep)
  }

  /** Joining the pieces of a split with the same separator gives back the string. */
  lemma {:induction false} JoinSplit<T>(s: seq<T>, sep: seq<T>)
    requires |sep| > 0
    ensures Join(Split(s, sep), sep) == s
    decreases |s|
  {
    match FindFrom(s, sep, 0)
    case None =>
    case Some(i) =>
      var rest := s[i + |sep|..];
      var tail := Split(rest, sep);
      JoinSplit(rest, sep);
      JoinCons(s[..i], tail, sep);
      assert s == s[..i] + sep + rest;
  }

  lemma JoinCons<T>(x: seq<T>, xs: seq<seq<T>>, sep: seq<T>)
    requires |xs| >= 1
    ensures Join([x] + xs, sep) == x + sep + Join(xs, sep)
  {
    assert ([x] + xs)[1..] == xs;
  }

  /** One step of `Split`, for the proofs below. */
  lemma SplitStep<T>(s: seq<T>, sep: seq<T>, i: nat)
    requires |sep| > 0 && FindFrom(s, sep, 0) == Some(i)
    ensures Split(s, sep) == [s[..i]] + Split(s[i + |sep|..], sep)
  {
    var f := FindFrom(s, sep, 0);
    assert f.value == i;
  }

  /** The first piece of a split is the part before the first occurrence, and
      does not contain the separator. */
  lemma SplitHead<T>(s: seq<T>, sep: seq<T>)
    requires |sep| > 0
    ensures StartsWith(s, Split(s, sep)[0])
    ensures !Contains(Split(s, sep)[0], sep)
    ensures !Contains(s, sep) ==> Split(s, sep) == [s]
  {
    var f := FindFrom(s, sep, 0);
    if f.Some? {
      var i := f.value;
      SplitStep(s, sep, i);
      var h := s[..i];
      assert Split(s, sep)[0] == h;
      if Contains(h, sep) {
        var j :| 0 <= j <= |h| - |sep| && MatchAt(h, sep, j);
        assert s[j..j + |sep|] == h[j..j + |sep|];
        assert MatchAt(s, sep, j);
        assert false;
      }
    }
  }

  /** Each character of a string occurs in it. */
  lemma CharContained<T>(s: seq<T>, i: nat)
    requires i < |s|
    ensures Contains(s, [s[i]])
  {
    assert MatchAt(s, [s[i]], i);
  }

  /** A concatenation starts with its left part and ends with its right part. */
  lemma ConcatAffixes<T>(a: seq<T>, b: seq<T>)
    ensures StartsWith(a + b, a) && EndsWith(a + b, b)
  {
    assert (a + b)[..|a|] == a;
    assert (a + b)[|a|..] == b;
  }

  /** A suffix of a suffix is a suffix. */
  lemma EndsWithSuffix<T>(a: seq<T>, k: nat, x: seq<T>)
    requires k <= |a| && EndsWith(a[k..], x)
    ensures EndsWith(a, x)
  {
    assert a[|a| - |x|..] == a[k..][|a[k..]| - |x|..];
  }

  /** The last piece of a split (`s.split(sep).pop()`) is a suffix of `s`,
      and is preceded by `sep` whenever `s` contains `sep`. */
  lemma {:induction false} SplitLast<T>(s: seq<T>, sep: seq<T>)
    requires |sep| > 0
    ensures EndsWith(s, Last(Split(s, sep)))
    ensures Contains(s, sep) ==> EndsWith(s, sep + Last(Split(s, sep)))
    ensures !Contains(s, sep) ==> Last(Split(s, sep)) == s
    decreases |s|
  {
    ContainsIffFound(s, sep);
    var f := FindFrom(s, sep, 0);
    if f.None? {
      assert Split(s, sep) == [s];
      assert s[|s| - |s|..] == s;
    } else {
      var i := f.value;
      var rest := s[i + |sep|..];
      SplitStep(s, sep, i);
      SplitLast(rest, sep);
      var l := Last(Split(rest, sep));
      LastCons(s[..i], Split(rest, sep));
      SplitTail(s, sep, i);
      if Contains(rest, sep) {
        EndsWithSuffix(s, i + |sep|, sep + l);
      } else {
        EndsWithSuffix(s, i, sep + l);
      }
      EndsWithDrop(s, sep, l);
    }
  }

  /** The last element of `[x] + xs` is the last element of `xs`. */
  lemma LastCons<T>(x: T, xs: seq<T>)
    requires |xs| > 0
    ensures Last([x] + xs) == Last(xs)
  {
  }

  /** What follows a found separator is the separator and then the rest. */
  lemma SplitTail<T>(s: seq<T>, sep: seq<T>, i: nat)
    requires MatchAt(s, sep, i)
    ensures s[i..] == sep + s[i + |sep|..]
  {
    assert s[i..] == s[i..i + |sep|] + s[i + |sep|..];
  }

  /** A string that ends with `p + q` ends with `q`. */
  lemma EndsWithDrop<T>(s: seq<T>, p: seq<T>, q: seq<T>)
    requires EndsWith(s, p + q)
    ensures EndsWith(s, q)
  {
    assert s[|s| - |q|..] == s[|s| - |p + q|..][|p|..];
  }

  // ---------------------------------------------------------------------------
  // Arrays
  // ---------------------------------------------------------------------------

  /** `xs.findIndex(p)`, the first position satisfying `p`, as an option. */
  function FirstWhere<T>(xs: seq<T>, p: T -> bool): (r: Option<nat>)
    ensures r.Some? ==> r.value < |xs| && p(xs[r.value])
    ensures r.Some? ==> forall j :: 0 <= j < r.value ==> !p(xs[j])
    ensures r.None? <==> forall j :: 0 <= j < |xs| ==> !p(xs[j])
  {
    FirstWhereFrom(xs, p, 0)
  }

  function FirstWhereFrom<T>(xs: seq<T>, p: T -> bool, k: nat): (r: Option<nat>)
    requires forall j :: 0 <= j < k && j < |xs| ==> !p(xs[j])
    ensures r.Some? ==> k <= r.value < |xs| && p(xs[r.value])
    ensures r.Some? ==> forall j :: 0 <= j < r.value ==> !p(xs[j])
    ensures r.None? <==> forall j :: 0 <= j < |xs| ==> !p(xs[j])
    decreases |xs| - k
  {
    if k >= |xs| then None
    else if p(xs[k]) then Some(k)
    else FirstWhereFrom(xs, p, k + 1)
  }

  /** `xs.filter(p)`. */
  function Filter<T(==)>(xs: seq<T>, p: T -> bool): (r: seq<T>)
    ensures |r| <= |xs|
    ensures forall i :: 0 <= i < |r| ==> r[i] in xs && p(r[i])
    ensures forall i :: 0 <= i < |xs| && p(xs[i]) ==> xs[i] in r
    decreases |xs|
  {
    if xs == [] then []
    else (if p(xs[0]) then [xs[0]] else []) + Filter(xs[1..], p)
  }

  /** A filter that keeps everything changes nothing. */
  lemma {:induction false} FilterAll<T>(xs: seq<T>, p: T -> bool)
    requires forall i :: 0 <= i < |xs| ==> p(xs[i])
    ensures Filter(xs, p) == xs
    decreases |xs|
  {
    if xs != [] {
      FilterAll(xs[1..], p);
    }
  }

  /** Filtering a concatenation filters each part and keeps their order. */
  lemma {:induction false} FilterAppend<T>(a: seq<T>, b: seq<T>, p: T -> bool)
    ensures Filter(a + b, p) == Filter(a, p) + Filter(b, p)
    decreases |a|
  {
    if a != [] {
      assert (a + b)[0] == a[0];
      assert (a + b)[1..] == a[1..] + b;
      FilterAppend(a[1..], b, p);
    } else {
      assert a + b == b;
    }
  }

  function Last<T>(xs: seq<T>): T
    requires |xs| > 0
  {
    xs[|xs| - 1]
  }

  /** `xs.slice(0, n)`. */
  function Take<T>(xs: seq<T>, n: nat): (r: seq<T>)
    ensures |r| == if n < |xs| then n else |xs|
    ensures r == xs[..|r|]
  {
    if n < |xs| then xs[..n] else xs
  }

  // ---------------------------------------------------------------------------
  // Numbers as text
  // ---------------------------------------------------------------------------

  predicate IsDigit(c: char) { '0' <= c <= '9' }

  function DigitChar(d: nat): (c: char)
    requires d < 10
    ensures IsDigit(c)
    ensures c as int - '0' as int == d
  {
    (d + '0' as int) as char
  }

  /** The decimal numeral of `n` (`String(n)`, `n.toString()`). */
  function NatToString(n: nat): (r: string)
    ensures |r| >= 1
    ensures forall i :: 0 <= i < |r| ==> IsDigit(r[i])
    decreases n
  {
    if n < 10 then [DigitChar(n)] else NatToString(n / 10) + [DigitChar(n % 10)]
  }

  /** The value of a string of decimal digits. */
  function DecimalValue(s: string): nat
    requires forall i :: 0 <= i < |s| ==> IsDigit(s[i])
    decreases |s|
  {
    if s == [] then 0
    else
      assert IsDigit(s[|s| - 1]);
      10 * DecimalValue(s[..|s| - 1]) + (s[|s| - 1] as int - '0' as int)
  }

  /** Reading the numeral back gives the number. */
  lemma {:induction false} NatToStringValue(n: nat)
    ensures DecimalValue(NatToString(n)) == n
    decreases n
  {
    if n >= 10 {
      NatToStringValue(n / 10);
      var r := NatToString(n);
      assert r[..|r| - 1] == NatToString(n / 10);
    }
  }

  function IntToString(i: int): (r: string)
    ensures |r| >= 1
  {
    if i < 0 then "-" + NatToString(-i) else NatToString(i)
  }

  // ---------------------------------------------------------------------------
  // Number arithmetic (exact reals stand for doubles)
  // ---------------------------------------------------------------------------

  /** `Math.trunc(r)`: rounds toward zero. */
  function Trunc(r: real): (t: int)
    ensures r >= 0.0 ==> t == r.Floor
    ensures r < 0.0 ==> t == -((-r).Floor)
  {
    if r >= 0.0 then r.Floor else -((-r).Floor)
  }

  /** `x % 60` on numbers: the remainder takes the sign of `x`. (One
      function per divisor keeps the arithmetic linear for the solver.) */
  function Rem60(x: real): (r: real)
    ensures x >= 0.0 ==> 0.0 <= r < 60.0
    ensures x < 0.0 ==> -60.0 < r <= 0.0
  {
    x - 60.0 * (Trunc(x / 60.0) as real)
  }

  /** `x % 24` on numbers, as `Rem60`. */
  function Rem24(x: real): (r: real)
    ensures x >= 0.0 ==> 0.0 <= r < 24.0
    ensures x < 0.0 ==> -24.0 < r <= 0.0
  {
    x - 24.0 * (Trunc(x / 24.0) as real)
  }

  /** Adding a whole number moves the floor by that number. */
  lemma FloorShift(x: real, k: int)
    ensures (x + k as real).Floor == x.Floor + k
  {
  }

  /** `s.padStart(2, '0')`. */
  function PadStart2(s: string): (r: string)
    ensures |r| == if |s| >= 2 then |s| else 2
    ensures EndsWith(r, s)
    ensures forall i :: 0 <= i < |r| - |s| ==> r[i] == '0'
  {
    if |s| >= 2 then s else if |s| == 1 then "0" + s else "00"
  }

  // ---------------------------------------------------------------------------
  // encodeURIComponent
  // ---------------------------------------------------------------------------

  /** The characters `encodeURIComponent` leaves as they are. */
  predicate IsUriUnreserved(c: char) {
    || ('A' <= c <= 'Z') || ('a' <= c <= 'z') || ('0' <= c <= '9')
    || c == '-' || c == '_' || c == '.' || c == '!' || c == '~'
    || c == '*' || c == '\'' || c == '(' || c == ')'
  }

  predicate IsUpperHexDigit(c: char) {
    ('0' <= c <= '9') || ('A' <= c <= 'F')
  }

  function HexDigit(d: nat): (c: char)
    requires d < 16
    ensures IsUpperHexDigit(c)
  {
    if d < 10 then (d + '0' as int) as char else (d - 10 + 'A' as int) as char
  }

  /** The UTF-8 encoding of one Unicode scalar value. */
  function Utf8(c: char): (bytes: seq<nat>)
    ensures 1 <= |bytes| <= 4
    ensures forall i :: 0 <= i < |bytes| ==> bytes[i] < 256
  {
    var cp := c as int;
    if cp < 0x80 then [cp]
    else if cp < 0x800 then [0xC0 + cp / 0x40, 0x80 + cp % 0x40]
    else if cp < 0x10000 then [0xE0 + cp / 0x1000, 0x80 + (cp / 0x40) % 0x40, 0x80 + cp % 0x40]
    else [0xF0 + cp / 0x40000, 0x80 + (cp / 0x1000) % 0x40, 0x80 + (cp / 0x40) % 0x40, 0x80 + cp % 0x40]
  }

  /** `%XX` for each byte, upper-case hex. */
  function PercentBytes(bytes: seq<nat>): (r: string)
    requires forall i :: 0 <= i < |bytes| ==> bytes[i] < 256
    ensures |r| == 3 * |bytes|
    ensures forall i :: 0 <= i < |r| ==> r[i] == '%' || IsUpperHexDigit(r[i])
  {
    if bytes == [] then []
    else ['%', HexDigit(bytes[0] / 16), HexDigit(bytes[0] % 16)] + PercentBytes(bytes[1..])
  }

  function EncodeChar(c: char): (r: string)
    ensures forall i :: 0 <= i < |r| ==> IsUriSafe(r[i])
  {
    if IsUriUnreserved(c) then [c] else PercentBytes(Utf8(c))
  }

  /** What can appear in the output of `encodeURIComponent`. */
  predicate IsUriSafe(c: char) {
    IsUriUnreserved(c) || c == '%'
  }

  /** `encodeURIComponent(s)`. */
  function EncodeUriComponent(s: string): (r: string)
    ensures forall i :: 0 <= i < |r| ==> IsUriSafe(r[i])
    ensures (forall i :: 0 <= i < |s| ==> IsUriUnreserved(s[i])) ==> r == s
    decreases |s|
  {
    if s == [] then [] else EncodeChar(s[0]) + EncodeUriComponent(s[1..])
  }
}
