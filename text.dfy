/** Character classes and string operations of the Python library that the
    validators rely on: `str.isdigit`, `str.strip`, `int(...)` on digit strings,
    and the regular-expression classes `[A-Za-z]` and `\d`. Only ASCII digits
    and ASCII whitespace are recognised. */
module Text {

  predicate IsDigit(c: char)
  {
    '0' <= c <= '9'
  }

  predicate IsLetter(c: char)
  {
    ('A' <= c <= 'Z') || ('a' <= c <= 'z')
  }

  /** The usual ASCII whitespace: space, tab, newline, carriage return,
      vertical tab and form feed. Python's `str.strip()` removes these and
      also the separators \x1c-\x1f and the Unicode spaces (\x85, \xa0 and
      others), which this model does not treat as whitespace. */
  predicate IsSpace(c: char)
  {
    c == ' ' || c == '\t' || c == '\n' || c == '\r' || c == '\U{B}' || c == '\U{C}'
  }

  /** `s.isdigit()`: non-empty and all digits. */
  predicate IsDigits(s: string)
  {
    |s| > 0 && forall k :: 0 <= k < |s| ==> IsDigit(s[k])
  }

  /** `int(s)` for a digit string. */
  function DecimalValue(s: string): (n: nat)
    requires forall k :: 0 <= k < |s| ==> IsDigit(s[k])
  {
    if s == [] then 0
    else
      assert IsDigit(s[|s| - 1]);
      DecimalValue(s[..|s| - 1]) * 10 + (s[|s| - 1] as int - '0' as int)
  }

  /** The decimal digits of `n`, `str(n)`. */
  function DecimalText(n: nat): (s: string)
    ensures IsDigits(s)
  {
    var d := ['0' + (n % 10) as char];
    if n < 10 then d else DecimalText(n / 10) + d
  }

  /** Reading back the digits of a number gives the number. */
  lemma {:induction false} DecimalRoundTrip(n: nat)
    ensures DecimalValue(DecimalText(n)) == n
  {
    var s := DecimalText(n);
    if n >= 10 {
      DecimalRoundTrip(n / 10);
      assert s[..|s| - 1] == DecimalText(n / 10);
    }
  }

  /** Leading whitespace removed. */
  function StripLeft(s: string): (r: string)
    ensures |r| <= |s|
    ensures r == [] || !IsSpace(r[0])
  {
    if s != [] && IsSpace(s[0]) then StripLeft(s[1..]) else s
  }

  /** Trailing whitespace removed. */
  function StripRight(s: string): (r: string)
    ensures |r| <= |s|
    ensures r == [] || !IsSpace(r[|r| - 1])
  {
    if s != [] && IsSpace(s[|s| - 1]) then StripRight(s[..|s| - 1]) else s
  }

  /** `s.strip()`. */
  function Strip(s: string): string
  {
    StripRight(StripLeft(s))
  }

  /** How many whitespace characters `StripLeft` removes: the stripped text
      is what follows them. */
  function LeadingSpaces(s: string): (i: nat)
    ensures i <= |s| && StripLeft(s) == s[i..]
    ensures forall k :: 0 <= k < i ==> IsSpace(s[k])
  {
    if s != [] && IsSpace(s[0]) then
      var i := LeadingSpaces(s[1..]);
      assert s[1..][i..] == s[i + 1..];
      assert forall k :: 0 < k < i + 1 ==> s[k] == s[1..][k - 1];
      i + 1
    else
      assert s == s[0..];
      0
  }

  /** How many characters `StripRight` keeps: the stripped text is that
      prefix, and only whitespace follows it. */
  function KeptLength(s: string): (j: nat)
    ensures j <= |s| && StripRight(s) == s[..j]
    ensures forall k :: j <= k < |s| ==> IsSpace(s[k])
  {
    if s != [] && IsSpace(s[|s| - 1]) then
      var t := s[..|s| - 1];
      var j := KeptLength(t);
      assert t[..j] == s[..j];
      j
    else
      assert s == s[..|s|];
      |s|
  }

  /** Neither starting nor ending with whitespace. */
  predicate Trimmed(t: string)
  {
    t == [] || (!IsSpace(t[0]) && !IsSpace(t[|t| - 1]))
  }

  /** The stripped text neither starts nor ends with whitespace. */
  lemma StripIsTrimmed(s: string)
    ensures Trimmed(Strip(s))
  {
    var l := StripLeft(s);
    var j := KeptLength(l);
    if StripRight(l) != [] {
      assert StripRight(l)[0] == l[0];
    }
  }

  lemma SliceOfSuffix(s: string, i: nat, j: nat)
    requires i + j <= |s|
    ensures s[i..][..j] == s[i..i + j]
  {
  }

  lemma AfterKept(l: string, k: nat)
    requires KeptLength(l) <= k < |l|
    ensures IsSpace(l[k])
  {
  }

  /** The stripped text is the stretch of the original that starts after its
      `i` leading whitespace characters and has the kept length `j`. */
  lemma StripIsInfix(s: string, i: nat, j: nat)
    requires i == LeadingSpaces(s) && j == KeptLength(StripLeft(s))
    ensures i + j <= |s| && Strip(s) == s[i..i + j]
  {
    var l := StripLeft(s);
    assert l == s[i..];
    assert Strip(s) == StripRight(l);
    assert StripRight(l) == l[..j];
    SliceOfSuffix(s, i, j);
  }

  /** What stripping removes is whitespace, on either side. */
  lemma StripRemovesSpaces(s: string, i: nat, j: nat)
    requires i == LeadingSpaces(s) && j == KeptLength(StripLeft(s))
    ensures forall k :: 0 <= k < i ==> IsSpace(s[k])
    ensures forall k :: i + j <= k < |s| ==> IsSpace(s[k])
  {
    var l := StripLeft(s);
    assert l == s[i..];
    forall k | i + j <= k < |s| ensures IsSpace(s[k]) {
      AfterKept(l, k - i);
    }
  }

  /** Text without surrounding whitespace is left as it is. */
  lemma StripTrimmed(t: string)
    requires Trimmed(t)
    ensures Strip(t) == t
  {
  }

  /** Stripping twice gives what stripping once gives. */
  lemma StripIdempotent(s: string)
    ensures Strip(Strip(s)) == Strip(s)
  {
    StripIsTrimmed(s);
    StripTrimmed(Strip(s));
  }

  /** Nothing is left exactly when the text is all whitespace. */
  lemma StripEmptyIff(s: string)
    ensures Strip(s) == [] <==> forall k :: 0 <= k < |s| ==> IsSpace(s[k])
  {
    var i, j := LeadingSpaces(s), KeptLength(StripLeft(s));
    StripIsInfix(s, i, j);
    StripRemovesSpaces(s, i, j);
    if Strip(s) != [] {
      assert Strip(s)[0] == s[i];
    }
  }
}
