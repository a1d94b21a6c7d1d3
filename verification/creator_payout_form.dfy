/**
 * The creator step of the billing wizard
 * (frontend/components/dashboard/CreatorPayoutForm.tsx): the zod schema
 * `creatorPayoutSchema`, the submit handler and the Back button.
 */
module CreatorPayoutForm {
  import opened Wrappers
  import opened Chars
  import opened Regex
  import opened Records
  import Validation

  datatype CreatorField = Name | Pan | Upi | BankAccount | Ifsc | Address

  /** `[a-zA-Z0-9.\-_]`: letters, digits, '.', '-' (escaped, so not a range) and '_'. */
  const UpiLocalClass: CharClass :=
    Ranges([('a', 'z'), ('A', 'Z'), ('0', '9'), ('.', '.'), ('-', '-'), ('_', '_')])

  /** `[a-zA-Z]` */
  const LettersClass: CharClass := Ranges([('a', 'z'), ('A', 'Z')])

  /** `^[A-Z]{5}[0-9]{4}[A-Z]{1}$` */
  const PanRegex: Pattern :=
    [Exactly(Validation.Uppers, 5), Exactly(Validation.Digits, 4), Exactly(Validation.Uppers, 1)]

  /** `^[a-zA-Z0-9.\-_]{2,256}@[a-zA-Z]{2,64}$` */
  const UpiRegex: Pattern :=
    [Piece(UpiLocalClass, 2, 256), Exactly(Validation.Literal('@'), 1), Piece(LettersClass, 2, 64)]

  /** `^\d{9,18}$` */
  const BankAccountRegex: Pattern := [Piece(Validation.Digits, 9, 18)]

  /** `^[A-Z]{4}0[A-Z0-9]{6}$` */
  const IfscRegex: Pattern :=
    [Exactly(Validation.Uppers, 4), Exactly(Validation.Literal('0'), 1), Exactly(Validation.UppersDigits, 6)]

  predicate IsUpiLocalChar(c: char) {
    IsLetter(c) || IsDigit(c) || c == '.' || c == '-' || c == '_'
  }

  /** The part before the '@': 2 to 256 letters, digits, '.', '-' or '_'. */
  predicate UpiHandleOk(t: string) {
    2 <= |t| <= 256 && forall j :: 0 <= j < |t| ==> IsUpiLocalChar(t[j])
  }

  /** The part after the '@': 2 to 64 ASCII letters. */
  predicate UpiProviderOk(t: string) {
    2 <= |t| <= 64 && forall j :: 0 <= j < |t| ==> IsLetter(t[j])
  }

  /** `s` is a UPI handle whose '@' sits at index `i`. */
  predicate UpiSplitAt(s: string, i: int) {
    0 <= i < |s| && s[i] == '@' && UpiHandleOk(s[..i]) && UpiProviderOk(s[i + 1..])
  }

  predicate UpiShape(s: string) {
    exists i :: 0 <= i < |s| && UpiSplitAt(s, i)
  }

  /** Between 9 and 18 ASCII digits. */
  predicate BankAccountShape(s: string) {
    9 <= |s| <= 18 && forall i :: 0 <= i < |s| ==> IsDigit(s[i])
  }

  /** The form's PAN and IFSC regexes are the backend's patterns, character for character. */
  lemma RegexesAreBackendPatterns()
    ensures PanRegex == Validation.PanPattern
    ensures IfscRegex == Validation.IfscPattern
  {
  }

  lemma UpiClassFacts(c: char)
    ensures InClass(c, UpiLocalClass) <==> IsUpiLocalChar(c)
    ensures InClass(c, LettersClass) <==> IsLetter(c)
    ensures InClass(c, Validation.Literal('@')) <==> c == '@'
  {
    var rs := UpiLocalClass.ranges;
    InRangesAny(c, rs);
    InRangesAny(c, LettersClass.ranges);
    InRangesAny(c, Validation.Literal('@').ranges);
    if IsUpiLocalChar(c) {
      if IsLower(c) { assert rs[0].0 <= c <= rs[0].1; }
      else if IsUpper(c) { assert rs[1].0 <= c <= rs[1].1; }
      else if IsDigit(c) { assert rs[2].0 <= c <= rs[2].1; }
      else if c == '.' { assert rs[3].0 <= c <= rs[3].1; }
      else if c == '-' { assert rs[4].0 <= c <= rs[4].1; }
      else { assert rs[5].0 <= c <= rs[5].1; }
    }
    if IsLetter(c) {
      if IsLower(c) { assert LettersClass.ranges[0].0 <= c <= LettersClass.ranges[0].1; }
      else { assert LettersClass.ranges[1].0 <= c <= LettersClass.ranges[1].1; }
    }
  }

  lemma ProviderMatch(t: string)
    ensures FullMatch([UpiRegex[2]], t) <==> UpiProviderOk(t)
  {
    SinglePieceMatch(UpiRegex[2], t);
    forall j | 0 <= j < |t| { UpiClassFacts(t[j]); }
  }

  lemma AtProviderMatch(t: string)
    ensures FullMatch(UpiRegex[1..], t) <==> |t| > 0 && t[0] == '@' && UpiProviderOk(t[1..])
  {
    var at, provider := UpiRegex[1], UpiRegex[2];
    assert UpiRegex[1..] == [at] + [provider];
    FullMatchCons(at, [provider], t);
    if |t| > 0 {
      ProviderMatch(t[1..]);
      UpiClassFacts(t[0]);
      assert t[..1] == [t[0]];
    }
    if FullMatch(UpiRegex[1..], t) {
      var m: nat :| at.lo <= m <= at.hi && m <= |t| && AllIn(t[..m], at.cls) && FullMatch([provider], t[m..]);
      assert m == 1;
    }
  }

  /** The UPI regex accepts exactly the handles that split at an '@' into the two admissible parts. */
  lemma UpiRegexShape(s: string)
    ensures FullMatch(UpiRegex, s) <==> UpiShape(s)
  {
    var local := UpiRegex[0];
    assert UpiRegex == [local] + UpiRegex[1..];
    FullMatchCons(local, UpiRegex[1..], s);
    if FullMatch(UpiRegex, s) {
      var n: nat :| local.lo <= n <= local.hi && n <= |s| && AllIn(s[..n], local.cls) && FullMatch(UpiRegex[1..], s[n..]);
      AtProviderMatch(s[n..]);
      assert s[n..][1..] == s[n + 1..];
      forall j | 0 <= j < n ensures IsUpiLocalChar(s[..n][j]) { UpiClassFacts(s[..n][j]); }
      assert UpiSplitAt(s, n);
    }
    if UpiShape(s) {
      var i :| 0 <= i < |s| && UpiSplitAt(s, i);
      AtProviderMatch(s[i..]);
      assert s[i..][1..] == s[i + 1..];
      forall j | 0 <= j < i ensures InClass(s[..i][j], local.cls) { UpiClassFacts(s[..i][j]); }
      assert local.lo <= i <= local.hi && AllIn(s[..i], local.cls) && FullMatch(UpiRegex[1..], s[i..]);
    }
  }

  /** An accepted handle has exactly one '@', with 2..256 handle characters before it and 2..64 letters after it. */
  lemma UpiSingleAt(s: string)
    requires FullMatch(UpiRegex, s)
    ensures exists i :: UpiSplitAt(s, i) && forall j :: 0 <= j < |s| && s[j] == '@' ==> j == i
  {
    UpiRegexShape(s);
    var i :| 0 <= i < |s| && UpiSplitAt(s, i);
    forall j | 0 <= j < |s| && s[j] == '@' ensures j == i {
      NoAtOffSplit(s, i, j);
    }
  }

  /** Neither the handle nor the provider can contain an '@'. */
  lemma NoAtOffSplit(s: string, i: int, j: int)
    requires UpiSplitAt(s, i) && 0 <= j < |s|
    ensures j != i ==> s[j] != '@'
  {
    if j < i {
      assert s[..i][j] == s[j];
    } else if j > i {
      assert s[i + 1..][j - i - 1] == s[j];
    }
  }

  lemma RegexShapes(v: CreatorPayout)
    ensures FullMatch(PanRegex, v.pan) <==> Validation.PanShape(v.pan)
    ensures FullMatch(UpiRegex, v.upi) <==> UpiShape(v.upi)
    ensures FullMatch(BankAccountRegex, v.bankAccount) <==> BankAccountShape(v.bankAccount)
    ensures FullMatch(IfscRegex, v.ifsc) <==> Validation.IfscShape(v.ifsc)
  {
    Validation.PanPatternShape(v.pan);
    Validation.IfscPatternShape(v.ifsc);
    UpiRegexShape(v.upi);
    SinglePieceMatch(BankAccountRegex[0], v.bankAccount);
    forall i | 0 <= i < |v.bankAccount| { Validation.ClassFacts(v.bankAccount[i]); }
  }

  function FieldErrors(v: CreatorPayout): set<CreatorField> {
    (if |v.name| >= 2 then {} else {Name})
    + (if FullMatch(PanRegex, v.pan) then {} else {Pan})
    + (if FullMatch(UpiRegex, v.upi) then {} else {Upi})
    + (if FullMatch(BankAccountRegex, v.bankAccount) then {} else {BankAccount})
    + (if FullMatch(IfscRegex, v.ifsc) then {} else {Ifsc})
    + (if |v.address| >= 10 then {} else {Address})
  }

  /** Every field check of the schema, stated on the explicit shapes. */
  predicate Valid(v: CreatorPayout) {
    && |v.name| >= 2
    && Validation.PanShape(v.pan)
    && UpiShape(v.upi)
    && BankAccountShape(v.bankAccount)
    && Validation.IfscShape(v.ifsc)
    && |v.address| >= 10
  }

  /** `creatorPayoutSchema` parsing followed by `onSubmit`. */
  function Validate(v: CreatorPayout): (r: Result<CreatorPayout, set<CreatorField>>)
    ensures r.Ok? <==> Valid(v)
    ensures r.Ok? ==> r.value == v
    ensures r.Err? ==> r.error != {}
    ensures r.Err? ==> (Name in r.error <==> |v.name| < 2)
    ensures r.Err? ==> (Pan in r.error <==> !Validation.PanShape(v.pan))
    ensures r.Err? ==> (Upi in r.error <==> !UpiShape(v.upi))
    ensures r.Err? ==> (BankAccount in r.error <==> !BankAccountShape(v.bankAccount))
    ensures r.Err? ==> (Ifsc in r.error <==> !Validation.IfscShape(v.ifsc))
    ensures r.Err? ==> (Address in r.error <==> |v.address| < 10)
  {
    RegexShapes(v);
    var errors := FieldErrors(v);
    if errors == {} then Ok(v) else Err(errors)
  }

  /** What a click on the form's buttons asks of the wizard. */
  datatype Request = SubmitCreator(data: CreatorPayout) | GoBack | NoRequest

  /** The submit button validates first; the Back button calls `onBack` without looking at the fields. */
  function OnSubmitClick(v: CreatorPayout): (r: Request)
    ensures r == SubmitCreator(v) <==> Valid(v)
    ensures r != GoBack
    ensures !Valid(v) ==> r == NoRequest
  {
    match Validate(v)
    case Ok(data) => SubmitCreator(data)
    case Err(_) => NoRequest
  }

  /** The Back button ignores the field values; `BillingFlow.CreatorFormWiring` states what it does. */
  function OnBackClick(v: CreatorPayout): Request {
    GoBack
  }
}
