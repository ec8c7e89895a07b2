/** Python string methods over ASCII, as the model uses them: `str.isspace`,
    `str.isdigit`, `str.strip()`, `str.lower()`, `str.title()`, and the
    zero-padded decimal fields that `strftime` writes. */
module Text {

  // ---------------------------------------------------------------------------
  // Character classes

  /** `str.isspace` on ASCII: space, \t \n \v \f \r and the separators 0x1C-0x1F. */
  predicate IsSpace(c: char) {
    c == ' ' || 9 <= c as int <= 13 || 28 <= c as int <= 31
  }

  predicate IsDigit(c: char) { '0' <= c <= '9' }

  predicate IsUpper(c: char) { 'A' <= c <= 'Z' }

  predicate IsLower(c: char) { 'a' <= c <= 'z' }

  /** A cased character: the only characters `title` and `lower` change. */
  predicate IsLetter(c: char) { IsUpper(c) || IsLower(c) }

  function Lower(c: char): (r: char)
    ensures IsLetter(c) ==> IsLower(r) && Upper(r) == Upper(c)
    ensures !IsLetter(c) ==> r == c
  {
    if IsUpper(c) then (c as int + 32) as char else c
  }

  function Upper(c: char): (r: char)
    ensures IsLetter(c) ==> IsUpper(r)
    ensures !IsLetter(c) ==> r == c
    ensures IsUpper(c) ==> r == c
  {
    if IsLower(c) then (c as int - 32) as char else c
  }

  predicate AllSpace(s: string) {
    forall i :: 0 <= i < |s| ==> IsSpace(s[i])
  }

  predicate HasDigit(s: string) {
    exists i :: 0 <= i < |s| && IsDigit(s[i])
  }

  // ---------------------------------------------------------------------------
  // str.lower()

  function LowerStr(s: string): (r: string)
    ensures |r| == |s|
    ensures forall i :: 0 <= i < |s| ==> r[i] == Lower(s[i])
  {
    if s == [] then [] else [Lower(s[0])] + LowerStr(s[1..])
  }

  lemma LowerStrIdempotent(s: string)
    ensures LowerStr(LowerStr(s)) == LowerStr(s)
  {
    var once := LowerStr(s);
    forall i | 0 <= i < |s| ensures LowerStr(once)[i] == once[i] {
      if IsUpper(s[i]) { assert IsLower(once[i]); }
    }
  }

  // ---------------------------------------------------------------------------
  // str.strip()

  /** Index of the first non-space character (|s| when there is none). */
  function StripStart(s: string): (k: nat)
    ensures k <= |s|
    ensures forall i :: 0 <= i < k ==> IsSpace(s[i])
    ensures k < |s| ==> !IsSpace(s[k])
  {
    if s == [] || !IsSpace(s[0]) then 0
    else 1 + StripStart(s[1..])
  }

  /** One past the last non-space character (0 when there is none). */
  function StripEnd(s: string): (k: nat)
    ensures k <= |s|
    ensures forall i :: k <= i < |s| ==> IsSpace(s[i])
    ensures k > 0 ==> !IsSpace(s[k - 1])
  {
    if s == [] || !IsSpace(s[|s| - 1]) then |s|
    else StripEnd(s[..|s| - 1])
  }

  /** A string that `strip` leaves alone: empty, or not starting or ending with a space. */
  predicate IsStripped(r: string) {
    r == [] || (!IsSpace(r[0]) && !IsSpace(r[|r| - 1]))
  }

  /** Python's `s.strip()`: drop leading and trailing whitespace. */
  function Strip(s: string): (r: string)
    ensures IsStripped(r)
    ensures r == [] <==> AllSpace(s)
    ensures StripStart(s) + |r| <= |s|
    ensures forall i :: 0 <= i < |r| ==> r[i] == s[StripStart(s) + i]
    ensures forall i :: StripStart(s) + |r| <= i < |s| ==> IsSpace(s[i])
  {
    var lo := StripStart(s);
    var t := s[lo..];
    StripShape(s, lo, t, StripEnd(t));
    t[..StripEnd(t)]
  }

  /** Cutting leading spaces at lo and trailing spaces at lo + hi leaves a stripped string. */
  lemma StripShape(s: string, lo: nat, t: string, hi: nat)
    requires lo <= |s| && t == s[lo..] && hi <= |t|
    requires forall i :: 0 <= i < lo ==> IsSpace(s[i])
    requires lo < |s| ==> !IsSpace(s[lo])
    requires forall j :: hi <= j < |t| ==> IsSpace(t[j])
    requires hi > 0 ==> !IsSpace(t[hi - 1])
    ensures IsStripped(t[..hi])
    ensures t[..hi] == [] <==> AllSpace(s)
    ensures lo + hi <= |s|
    ensures forall i :: 0 <= i < hi ==> t[..hi][i] == s[lo + i]
    ensures forall i :: lo + hi <= i < |s| ==> IsSpace(s[i])
  {
    if lo < |s| {
      assert t[0] == s[lo];
      assert !AllSpace(s);
    }
    TrimmedCore(t, hi);
    SpacesAfterCore(s, lo, t, hi);
  }

  /** Cutting off a run of trailing spaces from a string that does not start with a space. */
  lemma TrimmedCore(t: string, hi: nat)
    requires hi <= |t| && (t != [] ==> !IsSpace(t[0]))
    requires hi > 0 ==> !IsSpace(t[hi - 1])
    requires forall j :: hi <= j < |t| ==> IsSpace(t[j])
    ensures IsStripped(t[..hi]) && (t[..hi] == [] <==> t == [])
  {
    if t != [] {
      assert IsSpace(t[0]) || hi != 0;
    }
  }

  /** The trailing spaces of a suffix are trailing spaces of the whole string. */
  lemma SpacesAfterCore(s: string, lo: nat, t: string, hi: nat)
    requires lo <= |s| && t == s[lo..] && hi <= |t|
    requires forall j :: hi <= j < |t| ==> IsSpace(t[j])
    ensures forall i :: lo + hi <= i < |s| ==> IsSpace(s[i])
  {
    forall i | lo + hi <= i < |s| ensures IsSpace(s[i]) {
      assert t[i - lo] == s[i];
    }
  }

  /** Cutting a string at lo and at lo + hi. */
  lemma SplitThree(s: string, lo: nat, hi: nat)
    requires lo + hi <= |s|
    ensures s == s[..lo] + s[lo..][..hi] + s[lo + hi..]
    ensures s[lo..][hi..] == s[lo + hi..]
  {
  }

  /** `strip` removes exactly whitespace padding: a stripped string surrounded by
      any whitespace strips back to itself. */
  lemma {:induction false} StripOfPadded(a: string, r: string, b: string)
    requires AllSpace(a) && AllSpace(b) && IsStripped(r)
    ensures Strip(a + r + b) == r
    decreases |a| + |b|
  {
    var s := a + r + b;
    if a != [] {
      assert s[0] == a[0];
      assert s[1..] == a[1..] + r + b;
      StripOfPadded(a[1..], r, b);
      assert StripStart(s) == 1 + StripStart(s[1..]);
      StripAfterLeadingSpace(s);
    } else if b != [] {
      assert s[|s| - 1] == b[|b| - 1];
      assert s[..|s| - 1] == a + r + b[..|b| - 1];
      StripOfPadded(a, r, b[..|b| - 1]);
      StripBeforeTrailingSpace(s);
    } else {
      assert s == r;
      if r != [] {
        assert StripStart(r) == 0;
        assert StripEnd(r) == |r|;
      }
    }
  }

  lemma StripAfterLeadingSpace(s: string)
    requires s != [] && IsSpace(s[0])
    ensures Strip(s) == Strip(s[1..])
  {
    assert StripStart(s) == 1 + StripStart(s[1..]);
    assert s[StripStart(s)..] == s[1..][StripStart(s[1..])..];
  }

  lemma StripBeforeTrailingSpace(s: string)
    requires s != [] && IsSpace(s[|s| - 1])
    ensures Strip(s) == Strip(s[..|s| - 1])
  {
    var p := s[..|s| - 1];
    var lo := StripStart(s);
    if lo == |s| {
      assert AllSpace(s) by { assert s[..lo] == s; }
      assert AllSpace(p);
    } else {
      StripStartOfPrefix(s);
      var t := s[lo..];
      assert p[lo..] == t[..|t| - 1];
      StripEndDropSpace(t);
      assert t[..StripEnd(t)] == p[lo..][..StripEnd(t)];
    }
  }

  lemma StripEndDropSpace(t: string)
    requires t != [] && IsSpace(t[|t| - 1])
    ensures StripEnd(t) == StripEnd(t[..|t| - 1])
  {
  }

  lemma {:induction false} StripStartOfPrefix(s: string)
    requires s != [] && IsSpace(s[|s| - 1])
    requires StripStart(s) < |s|
    ensures StripStart(s) == StripStart(s[..|s| - 1])
    decreases |s|
  {
    var p := s[..|s| - 1];
    if IsSpace(s[0]) {
      var rest := s[1..];
      assert p[0] == s[0] && p[1..] == rest[..|rest| - 1];
      StripStartOfPrefix(rest);
    } else {
      assert p[0] == s[0];
    }
  }

  /** `strip` leaves a stripped string alone. */
  lemma StrippedIsFixed(r: string)
    requires IsStripped(r)
    ensures Strip(r) == r
  {
    assert [] + r + [] == r;
    StripOfPadded([], r, []);
  }

  lemma StripIdempotent(s: string)
    ensures Strip(Strip(s)) == Strip(s)
  {
    StrippedIsFixed(Strip(s));
  }

  // ---------------------------------------------------------------------------
  // str.title()

  /** How `title` rewrites one character, given whether the character before it is a letter. */
  function TitleChar(c: char, afterLetter: bool): char {
    if !IsLetter(c) then c else if afterLetter then Lower(c) else Upper(c)
  }

  /** `title` as a left-to-right scan that remembers whether the previous character was a letter. */
  function TitleFrom(s: string, afterLetter: bool): (r: string)
    ensures |r| == |s|
    ensures forall i :: 0 <= i < |s| ==>
      r[i] == TitleChar(s[i], if i == 0 then afterLetter else IsLetter(s[i - 1]))
  {
    if s == [] then []
    else [TitleChar(s[0], afterLetter)] + TitleFrom(s[1..], IsLetter(s[0]))
  }

  /** Python's `s.title()`: a letter that starts the string or follows a
      non-letter is upper-cased, every other letter is lower-cased. */
  function Title(s: string): (r: string)
    ensures |r| == |s|
    ensures forall i :: 0 <= i < |s| ==> !IsLetter(s[i]) ==> r[i] == s[i]
    ensures forall i :: 0 <= i < |s| ==> IsLetter(s[i]) ==>
      (IsUpper(r[i]) <==> (i == 0 || !IsLetter(s[i - 1])))
    ensures forall i :: 0 <= i < |s| ==> IsLetter(s[i]) ==> Upper(r[i]) == Upper(s[i])
  {
    var r := TitleFrom(s, false);
    forall i | 0 <= i < |s|
      ensures !IsLetter(s[i]) ==> r[i] == s[i]
      ensures IsLetter(s[i]) ==> (IsUpper(r[i]) <==> (i == 0 || !IsLetter(s[i - 1])))
      ensures IsLetter(s[i]) ==> Upper(r[i]) == Upper(s[i])
    {
      var after := if i == 0 then false else IsLetter(s[i - 1]);
      assert r[i] == TitleChar(s[i], after);
      if after { assert r[i] == Lower(s[i]); } else { assert r[i] == Upper(s[i]); }
    }
    r
  }

  lemma TitleIdempotent(s: string)
    ensures Title(Title(s)) == Title(s)
  {
    var t := Title(s);
    forall i | 0 <= i < |s| ensures Title(t)[i] == t[i] {
      assert IsLetter(t[i]) == IsLetter(s[i]);
      if i > 0 { assert IsLetter(t[i - 1]) == IsLetter(s[i - 1]); }
    }
  }

  lemma TitleKeepsSpaces(s: string)
    ensures forall i :: 0 <= i < |s| ==> (IsSpace(Title(s)[i]) <==> IsSpace(s[i]))
  {
  }

  // ---------------------------------------------------------------------------
  // Zero-padded decimal fields

  function Pow10(n: nat): (p: nat)
    ensures p >= 1
  {
    if n == 0 then 1 else 10 * Pow10(n - 1)
  }

  function DigitChar(d: nat): (c: char)
    requires d < 10
    ensures IsDigit(c)
  {
    ('0' as int + d) as char
  }

  function DigitValue(c: char): nat
    requires IsDigit(c)
  {
    c as int - '0' as int
  }

  predicate AllDigits(s: string) {
    forall i :: 0 <= i < |s| ==> IsDigit(s[i])
  }

  /** The last `width` decimal digits of n, zero-padded on the left (`%02d`, `%06d`, ...). */
  function Digits(n: nat, width: nat): (s: string)
    ensures |s| == width
  {
    if width == 0 then [] else Digits(n / 10, width - 1) + [DigitChar(n % 10)]
  }

  lemma {:induction false} DigitsAreDigits(n: nat, width: nat)
    ensures AllDigits(Digits(n, width))
  {
    if width > 0 {
      DigitsAreDigits(n / 10, width - 1);
    }
  }

  /** The number a string of decimal digits denotes. */
  function DecimalValue(s: string): nat
    requires AllDigits(s)
  {
    if s == [] then 0 else 10 * DecimalValue(s[..|s| - 1]) + DigitValue(s[|s| - 1])
  }

  /** Reading back a padded field gives the number, when it fits in the width. */
  lemma {:induction false} DigitsRoundTrip(n: nat, width: nat)
    requires n < Pow10(width)
    ensures AllDigits(Digits(n, width))
    ensures DecimalValue(Digits(n, width)) == n
  {
    DigitsAreDigits(n, width);
    if width > 0 {
      DigitsRoundTrip(n / 10, width - 1);
      var s := Digits(n, width);
      assert s[..|s| - 1] == Digits(n / 10, width - 1);
    }
  }

  /** Dropping the last digit of a padded field is dividing by ten. */
  lemma DigitsDropLast(n: nat, width: nat)
    ensures Digits(n, width + 1)[..width] == Digits(n / 10, width)
  {
  }
}
