/**
 * The backend's format checks for Indian tax and bank identifiers
 * (backend/app/validation.py). Each check compiles an anchored pattern, runs
 * Python's `re.match` on the input and either returns the input unchanged or
 * raises `ValueError`. Only the shape is checked; there is no check digit.
 */
module Validation {
  import opened Wrappers
  import opened Chars
  import opened Regex

  /** The `ValueError` a check raises, naming the identifier kind and the rejected input. */
  datatype ValueError = InvalidGstin(gstin: string) | InvalidPan(pan: string) | InvalidIfsc(ifsc: string)

  const Digits: CharClass := Ranges([('0', '9')])
  const Uppers: CharClass := Ranges([('A', 'Z')])
  /** `[1-9A-Z]`, the entity-number position of a GSTIN. */
  const NonZeroDigitsUppers: CharClass := Ranges([('1', '9'), ('A', 'Z')])
  /** `[0-9A-Z]`. */
  const DigitsUppers: CharClass := Ranges([('0', '9'), ('A', 'Z')])
  /** `[A-Z0-9]`, the same set written in the other order. */
  const UppersDigits: CharClass := Ranges([('A', 'Z'), ('0', '9')])

  function Literal(c: char): CharClass { Ranges([(c, c)]) }

  /** `^[0-9]{2}[A-Z]{5}[0-9]{4}[A-Z]{1}[1-9A-Z]{1}Z[0-9A-Z]{1}$` */
  const GstinPattern: Pattern := [
    Exactly(Digits, 2), Exactly(Uppers, 5), Exactly(Digits, 4), Exactly(Uppers, 1),
    Exactly(NonZeroDigitsUppers, 1), Exactly(Literal('Z'), 1), Exactly(DigitsUppers, 1)
  ]

  /** `^[A-Z]{5}[0-9]{4}[A-Z]{1}$` */
  const PanPattern: Pattern := [Exactly(Uppers, 5), Exactly(Digits, 4), Exactly(Uppers, 1)]

  /** `^[A-Z]{4}0[A-Z0-9]{6}$` */
  const IfscPattern: Pattern := [Exactly(Uppers, 4), Exactly(Literal('0'), 1), Exactly(UppersDigits, 6)]

  /**
   * A GSTIN written out position by position: 2 digits (state code), 5
   * upper-case letters, 4 digits, 1 upper-case letter (the embedded PAN),
   * one of 1-9 or A-Z, the letter Z, one digit or upper-case letter.
   */
  predicate GstinShape(s: string) {
    && |s| == 15
    && (forall i :: 0 <= i < 2 ==> IsDigit(s[i]))
    && (forall i :: 2 <= i < 7 ==> IsUpper(s[i]))
    && (forall i :: 7 <= i < 11 ==> IsDigit(s[i]))
    && IsUpper(s[11])
    && (('1' <= s[12] <= '9') || IsUpper(s[12]))
    && s[13] == 'Z'
    && (IsDigit(s[14]) || IsUpper(s[14]))
  }

  /** A PAN: 5 upper-case letters, 4 digits, 1 upper-case letter. */
  predicate PanShape(s: string) {
    && |s| == 10
    && (forall i :: 0 <= i < 5 ==> IsUpper(s[i]))
    && (forall i :: 5 <= i < 9 ==> IsDigit(s[i]))
    && IsUpper(s[9])
  }

  /** An IFSC: 4 upper-case letters (bank), the digit 0, 6 digits or upper-case letters (branch). */
  predicate IfscShape(s: string) {
    && |s| == 11
    && (forall i :: 0 <= i < 4 ==> IsUpper(s[i]))
    && s[4] == '0'
    && (forall i :: 5 <= i < 11 ==> IsUpper(s[i]) || IsDigit(s[i]))
  }

  /** What Python's `$` lets through: the shape itself, or the shape followed by one final newline. */
  predicate ShapeOrShapeNewline(shape: string -> bool, s: string) {
    shape(s) || (|s| > 0 && s[|s| - 1] == '\n' && shape(s[..|s| - 1]))
  }

  lemma InOneRange(c: char, r: (char, char))
    ensures InRanges(c, [r]) <==> r.0 <= c <= r.1
  {
    assert [r][1..] == [];
  }

  lemma InTwoRanges(c: char, r: (char, char), r': (char, char))
    ensures InRanges(c, [r, r']) <==> (r.0 <= c <= r.1) || (r'.0 <= c <= r'.1)
  {
    assert [r, r'][1..] == [r'];
    InOneRange(c, r');
  }

  lemma ClassFacts(c: char)
    ensures InClass(c, Digits) <==> IsDigit(c)
    ensures InClass(c, Uppers) <==> IsUpper(c)
    ensures InClass(c, NonZeroDigitsUppers) <==> ('1' <= c <= '9') || IsUpper(c)
    ensures InClass(c, DigitsUppers) <==> IsDigit(c) || IsUpper(c)
    ensures InClass(c, UppersDigits) <==> IsUpper(c) || IsDigit(c)
    ensures InClass(c, Literal('Z')) <==> c == 'Z'
    ensures InClass(c, Literal('0')) <==> c == '0'
  {
    InOneRange(c, ('0', '9'));
    InOneRange(c, ('A', 'Z'));
    InOneRange(c, ('Z', 'Z'));
    InOneRange(c, ('0', '0'));
    InTwoRanges(c, ('1', '9'), ('A', 'Z'));
    InTwoRanges(c, ('0', '9'), ('A', 'Z'));
    InTwoRanges(c, ('A', 'Z'), ('0', '9'));
  }

  /** Unrolling a fixed pattern one piece at a time. */
  lemma ExpandCons(x: Piece, q: Pattern)
    requires x.lo == x.hi && Fixed(q)
    ensures Fixed([x] + q) && Expand([x] + q) == Repeat(x.cls, x.lo) + Expand(q)
  {
    assert ([x] + q)[1..] == q;
    assert Fixed([x] + q) by {
      forall i | 0 <= i < |[x] + q| ensures ([x] + q)[i].lo == ([x] + q)[i].hi {
        if i > 0 { assert ([x] + q)[i] == q[i - 1]; }
      }
    }
  }

  lemma GstinExpand()
    ensures Fixed(GstinPattern)
    ensures Expand(GstinPattern) == Repeat(Digits, 2) + (Repeat(Uppers, 5) + (Repeat(Digits, 4) + (Repeat(Uppers, 1)
      + (Repeat(NonZeroDigitsUppers, 1) + (Repeat(Literal('Z'), 1) + (Repeat(DigitsUppers, 1) + []))))))
  {
    var p := GstinPattern;
    ExpandCons(p[6], []);
    ExpandCons(p[5], [p[6]]);
    ExpandCons(p[4], p[5..]);
    ExpandCons(p[3], p[4..]);
    ExpandCons(p[2], p[3..]);
    ExpandCons(p[1], p[2..]);
    ExpandCons(p[0], p[1..]);
  }

  /** The compiled GSTIN pattern accepts exactly the GSTIN shape. */
  lemma GstinPatternShape(s: string)
    ensures FullMatch(GstinPattern, s) <==> GstinShape(s)
  {
    GstinExpand();
    var e := Expand(GstinPattern);
    assert |e| == 15;
    assert forall i :: 0 <= i < 2 ==> e[i] == Digits;
    assert forall i :: 2 <= i < 7 ==> e[i] == Uppers;
    assert forall i :: 7 <= i < 11 ==> e[i] == Digits;
    assert e[11] == Uppers && e[12] == NonZeroDigitsUppers && e[13] == Literal('Z') && e[14] == DigitsUppers;
    FixedMatch(GstinPattern, s);
    forall i | 0 <= i < |s| { ClassFacts(s[i]); }
  }

  /** The compiled PAN pattern accepts exactly the PAN shape. */
  lemma PanPatternShape(s: string)
    ensures FullMatch(PanPattern, s) <==> PanShape(s)
  {
    var p := PanPattern;
    ExpandCons(p[2], []);
    ExpandCons(p[1], p[2..]);
    ExpandCons(p[0], p[1..]);
    FixedMatch(PanPattern, s);
    forall i | 0 <= i < |s| { ClassFacts(s[i]); }
  }

  /** The compiled IFSC pattern accepts exactly the IFSC shape. */
  lemma IfscPatternShape(s: string)
    ensures FullMatch(IfscPattern, s) <==> IfscShape(s)
  {
    var p := IfscPattern;
    ExpandCons(p[2], []);
    ExpandCons(p[1], p[2..]);
    ExpandCons(p[0], p[1..]);
    FixedMatch(IfscPattern, s);
    forall i | 0 <= i < |s| { ClassFacts(s[i]); }
  }

  /** Python's `re.match` on the GSTIN pattern accepts the shape, with or without one trailing newline. */
  lemma GstinMatchIff(s: string)
    ensures PyDollarMatch(GstinPattern, s) <==> ShapeOrShapeNewline(GstinShape, s)
  {
    PyDollarMatchCases(GstinPattern, s);
    GstinPatternShape(s);
    if |s| > 0 { GstinPatternShape(s[..|s| - 1]); }
  }

  /** `validate_gstin`. */
  function ValidateGstin(gstin: string): (r: Result<string, ValueError>)
    ensures r.Ok? <==> ShapeOrShapeNewline(GstinShape, gstin)
    ensures r.Ok? ==> r.value == gstin
    ensures r.Err? ==> r.error == InvalidGstin(gstin)
  {
    GstinMatchIff(gstin);
    if !PyDollarMatch(GstinPattern, gstin) then Err(InvalidGstin(gstin)) else Ok(gstin)
  }

  /** Python's `re.match` on the PAN pattern accepts the shape, with or without one trailing newline. */
  lemma PanMatchIff(s: string)
    ensures PyDollarMatch(PanPattern, s) <==> ShapeOrShapeNewline(PanShape, s)
  {
    PyDollarMatchCases(PanPattern, s);
    PanPatternShape(s);
    if |s| > 0 { PanPatternShape(s[..|s| - 1]); }
  }

  /** `validate_pan`. */
  function ValidatePan(pan: string): (r: Result<string, ValueError>)
    ensures r.Ok? <==> ShapeOrShapeNewline(PanShape, pan)
    ensures r.Ok? ==> r.value == pan
    ensures r.Err? ==> r.error == InvalidPan(pan)
  {
    PanMatchIff(pan);
    if !PyDollarMatch(PanPattern, pan) then Err(InvalidPan(pan)) else Ok(pan)
  }

  /** Python's `re.match` on the IFSC pattern accepts the shape, with or without one trailing newline. */
  lemma IfscMatchIff(s: string)
    ensures PyDollarMatch(IfscPattern, s) <==> ShapeOrShapeNewline(IfscShape, s)
  {
    PyDollarMatchCases(IfscPattern, s);
    IfscPatternShape(s);
    if |s| > 0 { IfscPatternShape(s[..|s| - 1]); }
  }

  /** `validate_ifsc`. */
  function ValidateIfsc(ifsc: string): (r: Result<string, ValueError>)
    ensures r.Ok? <==> ShapeOrShapeNewline(IfscShape, ifsc)
    ensures r.Ok? ==> r.value == ifsc
    ensures r.Err? ==> r.error == InvalidIfsc(ifsc)
  {
    IfscMatchIff(ifsc);
    if !PyDollarMatch(IfscPattern, ifsc) then Err(InvalidIfsc(ifsc)) else Ok(ifsc)
  }

  /** The accepted input with the one newline Python's `$` tolerates removed. */
  function StripFinalNewline(s: string): (r: string)
    ensures |r| <= |s|
  {
    if |s| > 0 && s[|s| - 1] == '\n' then s[..|s| - 1] else s
  }

  /**
   * Apart from a tolerated final newline, an accepted GSTIN has 15
   * characters, its 13th is never '0' and its 14th is always 'Z'.
   */
  lemma AcceptedGstinFacts(s: string)
    requires ValidateGstin(s).Ok?
    ensures var t := StripFinalNewline(s);
      |t| == 15 && t[12] != '0' && t[13] == 'Z' && (t == s || s == t + "\n")
  {
    if |s| > 0 && s[|s| - 1] == '\n' {
      assert !GstinShape(s);
      assert s == s[..|s| - 1] + "\n";
    }
  }

  /** Apart from a tolerated final newline, an accepted PAN has 10 characters and an accepted IFSC 11, with '0' fifth. */
  lemma AcceptedPanIfscLengths(pan: string, ifsc: string)
    ensures ValidatePan(pan).Ok? ==> |StripFinalNewline(pan)| == 10
    ensures ValidateIfsc(ifsc).Ok? ==> |StripFinalNewline(ifsc)| == 11 && StripFinalNewline(ifsc)[4] == '0'
  {
    if |pan| > 0 && pan[|pan| - 1] == '\n' { assert !PanShape(pan); }
    if |ifsc| > 0 && ifsc[|ifsc| - 1] == '\n' { assert !IfscShape(ifsc); }
  }

  /** Matching is case-sensitive: nothing accepted contains a lower-case letter. */
  lemma AcceptedHaveNoLowercase(s: string)
    ensures ValidateGstin(s).Ok? ==> forall i :: 0 <= i < |s| ==> !IsLower(s[i])
    ensures ValidatePan(s).Ok? ==> forall i :: 0 <= i < |s| ==> !IsLower(s[i])
    ensures ValidateIfsc(s).Ok? ==> forall i :: 0 <= i < |s| ==> !IsLower(s[i])
  {
  }

  /**
   * The sample identifiers: an upper-case GSTIN, PAN and IFSC pass; a
   * lower-case GSTIN or IFSC, a short PAN and an IFSC without its fifth-place
   * '0' fail.
   */
  lemma SampleIdentifiers()
    ensures ValidateGstin("29ABCDE1234F1Z5") == Ok("29ABCDE1234F1Z5")
    ensures ValidateGstin("29abcde1234f1z5") == Err(InvalidGstin("29abcde1234f1z5"))
    ensures ValidatePan("ABCDE1234F") == Ok("ABCDE1234F")
    ensures ValidatePan("ABCD1234F") == Err(InvalidPan("ABCD1234F"))
    ensures ValidateIfsc("HDFC0001234") == Ok("HDFC0001234")
    ensures ValidateIfsc("hdfc0001234") == Err(InvalidIfsc("hdfc0001234"))
    ensures ValidateIfsc("HDFC1001234") == Err(InvalidIfsc("HDFC1001234"))
  {
    SampleGstins();
    SamplePans();
    SampleIfsc();
  }

  lemma SampleGstins()
    ensures ValidateGstin("29ABCDE1234F1Z5") == Ok("29ABCDE1234F1Z5")
    ensures ValidateGstin("29abcde1234f1z5") == Err(InvalidGstin("29abcde1234f1z5"))
  {
    var lower := "29abcde1234f1z5";
    assert !IsUpper(lower[2]) && lower[|lower| - 1] != '\n';
  }

  lemma SamplePans()
    ensures ValidatePan("ABCDE1234F") == Ok("ABCDE1234F")
    ensures ValidatePan("ABCD1234F") == Err(InvalidPan("ABCD1234F"))
  {
  }

  lemma SampleIfsc()
    ensures ValidateIfsc("HDFC0001234") == Ok("HDFC0001234")
    ensures ValidateIfsc("hdfc0001234") == Err(InvalidIfsc("hdfc0001234"))
    ensures ValidateIfsc("HDFC1001234") == Err(InvalidIfsc("HDFC1001234"))
  {
    var lower, noZero := "hdfc0001234", "HDFC1001234";
    assert !IsUpper(lower[0]) && lower[|lower| - 1] != '\n';
    assert noZero[4] != '0' && noZero[|noZero| - 1] != '\n';
  }

  /** Python's `$` lets a valid GSTIN followed by a newline through, and the newline is returned with it. */
  lemma TrailingNewlineAccepted()
    ensures ValidateGstin("29ABCDE1234F1Z5\n") == Ok("29ABCDE1234F1Z5\n")
  {
    var s := "29ABCDE1234F1Z5\n";
    assert s[..|s| - 1] == "29ABCDE1234F1Z5";
  }
}
