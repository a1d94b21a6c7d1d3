/**
 * The brand step of the billing wizard
 * (frontend/components/dashboard/BrandBillingForm.tsx): the zod schema
 * `brandBillingSchema` and the submit handler that passes a validated record
 * on. zod checks every field and reports every failing one, so validation
 * yields either the record or the set of fields in error.
 */
module BrandBillingForm {
  import opened Wrappers
  import opened Chars
  import opened Regex
  import opened Records
  import Validation

  datatype BrandField = CompanyName | Gstin | Address | Email | Phone | Budget

  /** The schema's GSTIN regex, written here as the form writes it. */
  const GstinRegex: Pattern := [
    Exactly(Validation.Digits, 2), Exactly(Validation.Uppers, 5), Exactly(Validation.Digits, 4),
    Exactly(Validation.Uppers, 1), Exactly(Validation.NonZeroDigitsUppers, 1),
    Exactly(Validation.Literal('Z'), 1), Exactly(Validation.DigitsUppers, 1)
  ]

  /** `^\d{10}$` */
  const PhoneRegex: Pattern := [Exactly(Validation.Digits, 10)]

  /** Ten ASCII digits. */
  predicate PhoneShape(s: string) {
    |s| == 10 && forall i :: 0 <= i < |s| ==> IsDigit(s[i])
  }

  /** The form's GSTIN regex is the backend's pattern, character for character. */
  lemma GstinRegexIsBackendPattern()
    ensures GstinRegex == Validation.GstinPattern
  {
  }

  lemma PhoneRegexShape(s: string)
    ensures FullMatch(PhoneRegex, s) <==> PhoneShape(s)
  {
    SinglePieceMatch(PhoneRegex[0], s);
    forall i | 0 <= i < |s| { Validation.ClassFacts(s[i]); }
  }

  /** The fields of `v` that fail their check; `isEmail` stands for zod's `.email()`. */
  function FieldErrors(v: BrandBilling, isEmail: string -> bool): set<BrandField> {
    (if |v.companyName| >= 2 then {} else {CompanyName})
    + (if FullMatch(GstinRegex, v.gstin) then {} else {Gstin})
    + (if |v.address| >= 10 then {} else {Address})
    + (if isEmail(v.email) then {} else {Email})
    + (if FullMatch(PhoneRegex, v.phone) then {} else {Phone})
    + (if v.budget > 0.0 then {} else {Budget})
  }

  /** Every field check of the schema, stated on the explicit shapes. */
  predicate Valid(v: BrandBilling, isEmail: string -> bool) {
    && |v.companyName| >= 2
    && Validation.GstinShape(v.gstin)
    && |v.address| >= 10
    && isEmail(v.email)
    && PhoneShape(v.phone)
    && v.budget > 0.0
  }

  /**
   * `brandBillingSchema` parsing followed by `onSubmit`: a record that passes
   * every check is handed on unchanged; otherwise each failing field is
   * reported.
   */
  function Validate(v: BrandBilling, isEmail: string -> bool): (r: Result<BrandBilling, set<BrandField>>)
    ensures r.Ok? <==> Valid(v, isEmail)
    ensures r.Ok? ==> r.value == v
    ensures r.Err? ==> r.error != {}
    ensures r.Err? ==> (CompanyName in r.error <==> |v.companyName| < 2)
    ensures r.Err? ==> (Gstin in r.error <==> !Validation.GstinShape(v.gstin))
    ensures r.Err? ==> (Address in r.error <==> |v.address| < 10)
    ensures r.Err? ==> (Email in r.error <==> !isEmail(v.email))
    ensures r.Err? ==> (Phone in r.error <==> !PhoneShape(v.phone))
    ensures r.Err? ==> (Budget in r.error <==> v.budget <= 0.0)
  {
    Validation.GstinPatternShape(v.gstin);
    PhoneRegexShape(v.phone);
    var errors := FieldErrors(v, isEmail);
    if errors == {} then Ok(v) else Err(errors)
  }

  /** The form's initial values: empty strings and a budget of 0. */
  const Defaults: BrandBilling := BrandBilling("", "", "", "", "", 0.0)

  /** Submitting the untouched form fails on every field but possibly the email, and in particular on the budget. */
  lemma DefaultsRejected(isEmail: string -> bool)
    ensures Validate(Defaults, isEmail).Err?
    ensures {CompanyName, Gstin, Address, Phone, Budget} <= Validate(Defaults, isEmail).error
  {
  }
}
