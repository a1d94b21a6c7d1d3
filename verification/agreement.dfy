/**
 * How the front end's checks relate to the backend's: the identifier
 * regexes are the same patterns, JavaScript's `$` and Python's `$` differ
 * only on one trailing newline, the backend records are laxer than the forms,
 * and the summary screen and the PDF print the same amounts.
 */
module Agreement {
  import opened Wrappers
  import opened Regex
  import opened Records
  import Validation
  import BrandBillingForm
  import CreatorPayoutForm
  import Schemas
  import Invoice
  import BillingSummary
  import BillingPdfDocument

  predicate EndsWithNewline(s: string) {
    |s| > 0 && s[|s| - 1] == '\n'
  }

  /**
   * The form's GSTIN check and `validate_gstin` agree on every string that
   * does not end in a newline; on one that does, only the backend can accept,
   * and it does exactly when the string is a GSTIN plus that newline.
   */
  lemma GstinAgreement(s: string)
    ensures FullMatch(BrandBillingForm.GstinRegex, s) ==> Validation.ValidateGstin(s).Ok?
    ensures !EndsWithNewline(s) ==> (FullMatch(BrandBillingForm.GstinRegex, s) <==> Validation.ValidateGstin(s).Ok?)
    ensures EndsWithNewline(s) ==> !FullMatch(BrandBillingForm.GstinRegex, s)
    ensures EndsWithNewline(s) ==>
      (Validation.ValidateGstin(s).Ok? <==> FullMatch(BrandBillingForm.GstinRegex, s[..|s| - 1]))
  {
    BrandBillingForm.GstinRegexIsBackendPattern();
    Validation.GstinPatternShape(s);
    if |s| > 0 { Validation.GstinPatternShape(s[..|s| - 1]); }
  }

  /** The same for the creator form's PAN check and `validate_pan`. */
  lemma PanAgreement(s: string)
    ensures FullMatch(CreatorPayoutForm.PanRegex, s) ==> Validation.ValidatePan(s).Ok?
    ensures !EndsWithNewline(s) ==> (FullMatch(CreatorPayoutForm.PanRegex, s) <==> Validation.ValidatePan(s).Ok?)
    ensures EndsWithNewline(s) ==> !FullMatch(CreatorPayoutForm.PanRegex, s)
    ensures EndsWithNewline(s) ==>
      (Validation.ValidatePan(s).Ok? <==> FullMatch(CreatorPayoutForm.PanRegex, s[..|s| - 1]))
  {
    CreatorPayoutForm.RegexesAreBackendPatterns();
    Validation.PanPatternShape(s);
    if |s| > 0 { Validation.PanPatternShape(s[..|s| - 1]); }
  }

  /** The same for the creator form's IFSC check and `validate_ifsc`. */
  lemma IfscAgreement(s: string)
    ensures FullMatch(CreatorPayoutForm.IfscRegex, s) ==> Validation.ValidateIfsc(s).Ok?
    ensures !EndsWithNewline(s) ==> (FullMatch(CreatorPayoutForm.IfscRegex, s) <==> Validation.ValidateIfsc(s).Ok?)
    ensures EndsWithNewline(s) ==> !FullMatch(CreatorPayoutForm.IfscRegex, s)
    ensures EndsWithNewline(s) ==>
      (Validation.ValidateIfsc(s).Ok? <==> FullMatch(CreatorPayoutForm.IfscRegex, s[..|s| - 1]))
  {
    CreatorPayoutForm.RegexesAreBackendPatterns();
    Validation.IfscPatternShape(s);
    if |s| > 0 { Validation.IfscPatternShape(s[..|s| - 1]); }
  }

  /**
   * Whatever the brand form accepts, `BrandBillingDetails` accepts unchanged,
   * provided every address zod's `.email()` accepts is one pydantic's
   * `EmailStr` accepts too.
   */
  lemma BrandFormImpliesBackend(v: BrandBilling, zodEmail: string -> bool, pydanticEmail: string -> bool)
    requires forall e :: zodEmail(e) ==> pydanticEmail(e)
    requires BrandBillingForm.Validate(v, zodEmail).Ok?
    ensures Schemas.ValidateBrandBillingDetails(v, pydanticEmail) == Ok(v)
  {
    assert pydanticEmail(v.email);
  }

  /** Without that inclusion the implication fails: a record the form accepts can be refused over its email alone. */
  lemma EmailInclusionNeeded(v: BrandBilling, zodEmail: string -> bool, pydanticEmail: string -> bool)
    requires BrandBillingForm.Validate(v, zodEmail).Ok? && !pydanticEmail(v.email)
    ensures Schemas.ValidateBrandBillingDetails(v, pydanticEmail) == Err({Schemas.Email})
  {
    assert !Schemas.BrandDetailsValid(v, pydanticEmail);
    var r := Schemas.ValidateBrandBillingDetails(v, pydanticEmail);
    assert Validation.ShapeOrShapeNewline(Validation.GstinShape, v.gstin);
    assert forall f :: f in r.error <==> f == Schemas.Email;
    assert r.error == {Schemas.Email};
  }

  /** Whatever the creator form accepts, `CreatorPayoutDetails` accepts unchanged. */
  lemma CreatorFormImpliesBackend(v: CreatorPayout)
    requires CreatorPayoutForm.Validate(v).Ok?
    ensures Schemas.ValidateCreatorPayoutDetails(v) == Ok(v)
  {
  }

  /** The backend is laxer: a one-letter company name, a short address and a non-numeric phone pass there but not in the form. */
  lemma BackendLaxerThanBrandForm(isEmail: string -> bool)
    requires isEmail("billing@acme.in")
    ensures var v := BrandBilling("A", "29ABCDE1234F1Z5", "Pune", "billing@acme.in", "phone", 1000.0);
      Schemas.ValidateBrandBillingDetails(v, isEmail).Ok? &&
      BrandBillingForm.Validate(v, isEmail) ==
        Err({BrandBillingForm.CompanyName, BrandBillingForm.Address, BrandBillingForm.Phone})
  {
    var v := BrandBilling("A", "29ABCDE1234F1Z5", "Pune", "billing@acme.in", "phone", 1000.0);
    Validation.SampleIdentifiers();
    assert !BrandBillingForm.PhoneShape(v.phone) by {
      assert |v.phone| == 5;
    }
    assert v.gstin[|v.gstin| - 1] != '\n';
    assert Validation.GstinShape(v.gstin);
    var r := BrandBillingForm.Validate(v, isEmail);
    assert r.Err?;
    assert r.error == {BrandBillingForm.CompanyName, BrandBillingForm.Address, BrandBillingForm.Phone};
  }

  /** The creator form demands a UPI id the backend never looks at. */
  lemma BackendLaxerThanCreatorForm()
    ensures var v := CreatorPayout("Ravi Kumar", "ABCDE1234F", "no-at-sign", "123456789", "HDFC0001234", "12 MG Road, Pune");
      Schemas.ValidateCreatorPayoutDetails(v).Ok? && CreatorPayoutForm.Validate(v) == Err({CreatorPayoutForm.Upi})
  {
    var v := CreatorPayout("Ravi Kumar", "ABCDE1234F", "no-at-sign", "123456789", "HDFC0001234", "12 MG Road, Pune");
    Validation.SamplePans();
    Validation.SampleIfsc();
    assert !CreatorPayoutForm.UpiShape(v.upi) by {
      forall i | 0 <= i < |v.upi| ensures v.upi[i] != '@' { }
    }
    assert CreatorPayoutForm.BankAccountShape(v.bankAccount);
  }

  /** The summary screen and the PDF show the same budget, GST and total for the same records. */
  lemma SummaryAndPdfAmountsAgree(brand: BrandBilling, creator: CreatorPayout, date: string)
    ensures var v := BillingSummary.Render(brand, creator);
      var amounts := BillingPdfDocument.ReadAmounts(BillingPdfDocument.Render(brand, creator, date));
      && amounts.Some?
      && v.financial[0].value == Invoice.Rupees(amounts.value.budget)
      && v.financial[1].value == Invoice.Rupees(amounts.value.gst)
      && v.financial[2].value == Invoice.Rupees(amounts.value.total)
  {
    BillingPdfDocument.ReadBackRender(brand, creator, date);
  }
}
