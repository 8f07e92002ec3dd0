/**
 * The parts of Python's string handling that snapper.py relies on:
 * `str.strip()`, `str.split(", ")` and `int(...)` on decimal text.
 */
module PyText {
  import opened Options

  /**
   * The two whitespace sets in play. `str.strip()` removes every character for
   * which `str.isspace()` holds. `int(...)` skips less: text below U+007F is
   * skipped only for the C-locale spaces, so the separators U+001C to U+001F,
   * which `isspace()` accepts, make it raise.
   */
  datatype Spaces = StrSpaces | IntSpaces

  /** Python's `str.isspace()` for a single character. */
  predicate IsStrSpace(c: char) {
    ('\t' <= c <= '\r') || ('\U{1C}' <= c <= '\U{1F}') || c == ' '
    || c == '\U{85}' || c == '\U{A0}' || c == '\U{1680}'
    || ('\U{2000}' <= c <= '\U{200A}') || c == '\U{2028}' || c == '\U{2029}'
    || c == '\U{202F}' || c == '\U{205F}' || c == '\U{3000}'
  }

  /** `c` belongs to the whitespace set `ws`. */
  predicate IsSpace(ws: Spaces, c: char) {
    IsStrSpace(c) && (ws == IntSpaces ==> !('\U{1C}' <= c <= '\U{1F}'))
  }

  predicate AllSpace(ws: Spaces, s: string) {
    forall i :: 0 <= i < |s| ==> IsSpace(ws, s[i])
  }

  /** Nothing for stripping with `ws` to remove. */
  predicate Trimmed(ws: Spaces, s: string) {
    s == [] || (!IsSpace(ws, s[0]) && !IsSpace(ws, s[|s| - 1]))
  }

  function TrimLeft(ws: Spaces, s: string): (r: string)
    ensures |r| <= |s| && (r == [] || !IsSpace(ws, r[0]))
    ensures s == [] || !IsSpace(ws, s[0]) ==> r == s
    ensures AllSpace(ws, s) ==> r == []
  {
    if s != [] && IsSpace(ws, s[0]) then TrimLeft(ws, s[1..]) else s
  }

  function TrimRight(ws: Spaces, s: string): (r: string)
    ensures |r| <= |s| && (r == [] || !IsSpace(ws, r[|r| - 1]))
    ensures r != [] ==> r[0] == s[0]
    ensures s == [] || !IsSpace(ws, s[|s| - 1]) ==> r == s
    ensures AllSpace(ws, s) ==> r == []
  {
    if s != [] && IsSpace(ws, s[|s| - 1]) then TrimRight(ws, s[..|s| - 1]) else s
  }

  /** The slice of `s` left after removing the surrounding whitespace of set `ws`. */
  function Strip(ws: Spaces, s: string): (r: string)
    ensures Trimmed(ws, r) && |r| <= |s|
    ensures Trimmed(ws, s) ==> r == s
    ensures AllSpace(ws, s) ==> r == []
  {
    TrimRight(ws, TrimLeft(ws, s))
  }

  lemma {:induction false} TrimLeftPadded(ws: Spaces, pre: string, t: string)
    requires AllSpace(ws, pre) && (t == [] || !IsSpace(ws, t[0]))
    ensures TrimLeft(ws, pre + t) == t
  {
    if pre != [] {
      assert (pre + t)[1..] == pre[1..] + t;
      TrimLeftPadded(ws, pre[1..], t);
    } else {
      assert pre + t == t;
    }
  }

  lemma {:induction false} TrimRightPadded(ws: Spaces, t: string, post: string)
    requires AllSpace(ws, post) && (t == [] || !IsSpace(ws, t[|t| - 1]))
    ensures TrimRight(ws, t + post) == t
  {
    if post != [] {
      assert (t + post)[..|t + post| - 1] == t + post[..|post| - 1];
      TrimRightPadded(ws, t, post[..|post| - 1]);
    } else {
      assert t + post == t;
    }
  }

  /** Whitespace around a trimmed, non-empty text is exactly what stripping removes. */
  lemma StripPadded(ws: Spaces, pre: string, t: string, post: string)
    requires AllSpace(ws, pre) && AllSpace(ws, post) && t != [] && Trimmed(ws, t)
    ensures Strip(ws, pre + t + post) == t
  {
    assert pre + t + post == pre + (t + post);
    TrimLeftPadded(ws, pre, t + post);
    TrimRightPadded(ws, t, post);
  }

  // ----- str.split(", ") -----

  /** The separator snapper.py splits the AppleScript reply on. */
  const Sep: string := ", "

  predicate SepAt(s: string, i: int) {
    0 <= i && i + 1 < |s| && s[i] == ',' && s[i + 1] == ' '
  }

  /** `s` does not contain ", ". */
  predicate NoSep(s: string) {
    forall i :: 0 <= i < |s| ==> !SepAt(s, i)
  }

  /** `", ".join(parts)` */
  function Join(parts: seq<string>): string {
    if parts == [] then []
    else if |parts| == 1 then parts[0]
    else parts[0] + Sep + Join(parts[1..])
  }

  /** The position of the first separator at or after `i`, or `|s|` if there is none. */
  function SepIndex(s: string, i: nat): (k: nat)
    requires i <= |s|
    ensures i <= k <= |s|
    ensures k < |s| ==> SepAt(s, k)
    decreases |s| - i
  {
    if i + 1 >= |s| then |s|
    else if SepAt(s, i) then i
    else SepIndex(s, i + 1)
  }

  /** No separator is skipped over: the one found is the first. */
  lemma {:induction false} SepIndexFirst(s: string, i: nat, j: int)
    requires i <= |s| && i <= j < SepIndex(s, i)
    ensures !SepAt(s, j)
    decreases |s| - i
  {
    if j > i {
      SepIndexFirst(s, i + 1, j);
    }
  }

  /**
   * `s.split(", ")`: the pieces between the separators, found left to right
   * without overlap.
   */
  function Split(s: string): (parts: seq<string>)
    ensures |parts| >= 1
    ensures Join(parts) == s
    decreases |s|
  {
    var k := SepIndex(s, 0);
    if k == |s| then [s]
    else
      var rest := Split(s[k + 2..]);
      assert s == s[..k] + Sep + s[k + 2..];
      assert ([s[..k]] + rest)[1..] == rest;
      [s[..k]] + rest
  }

  /** No piece of a split contains the separator. */
  lemma {:induction false} SplitPiecesHaveNoSep(s: string)
    ensures forall n :: 0 <= n < |Split(s)| ==> NoSep(Split(s)[n])
    decreases |s|
  {
    var k := SepIndex(s, 0);
    if k < |s| {
      var head, rest := s[..k], s[k + 2..];
      forall j | 0 <= j < |head| ensures !SepAt(head, j) {
        SepIndexFirst(s, 0, j);
      }
      SplitPiecesHaveNoSep(rest);
      assert Split(s) == [head] + Split(rest);
      forall n | 0 <= n < |Split(s)| ensures NoSep(Split(s)[n]) {
        if n > 0 {
          assert Split(s)[n] == Split(rest)[n - 1];
        }
      }
    } else {
      forall j | 0 <= j < |s| ensures !SepAt(s, j) {
        SepIndexFirst(s, 0, j);
      }
      assert Split(s) == [s];
    }
  }

  /** A text without the separator splits into itself alone. */
  lemma SplitNoSep(t: string)
    requires NoSep(t)
    ensures Split(t) == [t]
  {
    var k := SepIndex(t, 0);
    assert k < |t| ==> SepAt(t, k);
  }

  /** Scanning from `i` stops at the first separator. */
  lemma {:induction false} SepIndexFinds(s: string, i: nat, k: nat)
    requires i <= k < |s| && SepAt(s, k)
    requires forall j :: i <= j < k ==> !SepAt(s, j)
    ensures SepIndex(s, i) == k
    decreases k - i
  {
    if i < k {
      SepIndexFinds(s, i + 1, k);
    }
  }

  /** Everything before the first separator becomes the first piece. */
  lemma SplitAfterPart(p: string, t: string)
    requires NoSep(p)
    ensures Split(p + Sep + t) == [p] + Split(t)
  {
    var s := p + Sep + t;
    forall j | 0 <= j < |p| ensures !SepAt(s, j) {
      if j + 1 < |p| { assert !SepAt(p, j); }
    }
    SepIndexFinds(s, 0, |p|);
    assert s[..|p|] == p && s[|p| + 2..] == t;
  }

  /** Splitting undoes joining pieces that do not contain the separator. */
  lemma {:induction false} SplitJoin(parts: seq<string>)
    requires |parts| >= 1
    requires forall n :: 0 <= n < |parts| ==> NoSep(parts[n])
    ensures Split(Join(parts)) == parts
  {
    if |parts| == 1 {
      SplitNoSep(parts[0]);
    } else {
      SplitAfterPart(parts[0], Join(parts[1..]));
      SplitJoin(parts[1..]);
    }
  }

  /** A text splits into one piece exactly when it does not contain the separator. */
  lemma SplitSingleIffNoSep(t: string)
    ensures |Split(t)| == 1 <==> NoSep(t)
  {
    if NoSep(t) {
      SplitNoSep(t);
    } else {
      SplitPiecesHaveNoSep(t);
    }
  }

  // ----- int(...) on decimal text -----

  predicate IsDigit(c: char) {
    '0' <= c <= '9'
  }

  predicate AllDigits(s: string) {
    forall i :: 0 <= i < |s| ==> IsDigit(s[i])
  }

  /** The value of a decimal digit string, most significant digit first. */
  function DigitsValue(ds: string): nat
    requires AllDigits(ds)
  {
    if ds == [] then 0
    else 10 * DigitsValue(ds[..|ds| - 1]) + ((ds[|ds| - 1] as int) - ('0' as int))
  }

  /** A stripped decimal literal: an optional sign, then at least one ASCII digit. */
  function ParseLiteral(t: string): (r: Option<int>)
    ensures r.Some? ==> t != [] && IsDigit(t[|t| - 1])
  {
    if t != [] && (t[0] == '-' || t[0] == '+') then
      var ds := t[1..];
      if ds != [] && AllDigits(ds) then
        var d: int := DigitsValue(ds);
        Some(if t[0] == '-' then -d else d)
      else None
    else if t != [] && AllDigits(t) then Some(DigitsValue(t))
    else None
  }

  /**
   * `int(s)`: surrounding whitespace, an optional sign, then at least one
   * ASCII digit; anything else raises, which is None here.
   */
  function ParseInt(s: string): (r: Option<int>)
    ensures r.Some? ==> Strip(IntSpaces, s) != [] && IsDigit(Strip(IntSpaces, s)[|Strip(IntSpaces, s)| - 1])
  {
    ParseLiteral(Strip(IntSpaces, s))
  }

  function DigitChar(d: nat): (c: char)
    requires d < 10
    ensures IsDigit(c)
  {
    (('0' as int) + d) as char
  }

  /** Decimal digits of a natural number, without leading zeros. */
  function Digits(n: nat): string
    decreases n
  {
    if n < 10 then [DigitChar(n)] else Digits(n / 10) + [DigitChar(n % 10)]
  }

  /** `str(n)` for an integer. */
  function DecimalString(n: int): string {
    if n < 0 then "-" + Digits(-n) else Digits(n)
  }

  lemma {:induction false} DigitsRoundTrip(n: nat)
    ensures Digits(n) != [] && AllDigits(Digits(n))
    ensures DigitsValue(Digits(n)) == n
    decreases n
  {
    if n >= 10 {
      DigitsRoundTrip(n / 10);
      var ds := Digits(n);
      assert ds[..|ds| - 1] == Digits(n / 10);
    }
  }

  lemma DecimalStringParses(n: int)
    ensures DecimalString(n) != [] && Trimmed(IntSpaces, DecimalString(n))
    ensures ParseLiteral(DecimalString(n)) == Some(n)
  {
    var t := DecimalString(n);
    DigitsRoundTrip(if n < 0 then -n else n);
    if n < 0 {
      assert t[1..] == Digits(-n);
    }
  }

  /** `int(str(n)) == n`, whatever whitespace surrounds the digits. */
  lemma ParseIntRoundTrip(n: int, pre: string, post: string)
    requires AllSpace(IntSpaces, pre) && AllSpace(IntSpaces, post)
    ensures ParseInt(pre + DecimalString(n) + post) == Some(n)
  {
    DecimalStringParses(n);
    StripPadded(IntSpaces, pre, DecimalString(n), post);
  }

  /** `int(str(n)) == n`. */
  lemma ParseIntDecimal(n: int)
    ensures ParseInt(DecimalString(n)) == Some(n)
  {
    ParseIntRoundTrip(n, [], []);
    assert [] + DecimalString(n) + [] == DecimalString(n);
  }

  /**
   * A leading U+001C is removed by `str.strip()` but makes `int(...)` raise:
   * the two whitespace sets differ.
   */
  lemma FileSeparatorStopsInt()
    ensures Strip(StrSpaces, "\U{1C}1920") == "1920"
    ensures ParseInt("\U{1C}1920") == None
  {
    assert "\U{1C}1920" == ['\U{1C}'] + "1920" + [];
    StripPadded(StrSpaces, ['\U{1C}'], "1920", []);
    assert TrimLeft(IntSpaces, "\U{1C}1920") == "\U{1C}1920";
  }

  /** A resolution query on a machine with two displays prints two lines,
      which `int(...)` rejects. */
  lemma TwoLinesDoNotParse()
    ensures ParseInt("1920\n2560") == None
  {
    var s := "1920\n2560";
    assert s == [] + s + [];
    StripPadded(IntSpaces, [], s, []);
    assert !IsDigit(s[4]);
  }

  lemma EmptyOutputDoesNotParse()
    ensures ParseInt("") == None
  {
  }
}
