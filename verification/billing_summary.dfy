/**
 * The review screen of the billing wizard
 * (frontend/components/dashboard/BillingSummary.tsx): a card per record with
 * an Edit button, a financial summary, and the file name offered for the PDF.
 */
module BillingSummary {
  import opened Chars
  import opened Records
  import opened Invoice

  /** The argument of the `onEdit` callback, `'brand' | 'creator'`. */
  datatype EditStep = BrandStep | CreatorStep

  datatype Card = Card(title: string, description: string, rows: seq<Row>, editTarget: EditStep)

  datatype View = View(brandCard: Card, creatorCard: Card, financial: seq<Row>, pdfFileName: string)

  const FileNamePrefix: string := "Billing-Summary-"
  const FileNameSuffix: string := ".pdf"

  /** `companyName.replace(/\s/g, '_')`. */
  function ReplaceWhitespace(s: string): (r: string)
    ensures |r| == |s|
    ensures forall i :: 0 <= i < |s| ==> !IsJsWhitespace(r[i])
    ensures forall i :: 0 <= i < |s| && !IsJsWhitespace(s[i]) ==> r[i] == s[i]
    ensures forall i :: 0 <= i < |s| && IsJsWhitespace(s[i]) ==> r[i] == '_'
  {
    seq(|s|, i requires 0 <= i < |s| => if IsJsWhitespace(s[i]) then '_' else s[i])
  }

  function PdfFileName(companyName: string): string {
    FileNamePrefix + ReplaceWhitespace(companyName) + FileNameSuffix
  }

  /** The part of a file name between the fixed prefix and suffix, when both are there. */
  function CompanyPart(fileName: string): (r: string)
    requires |fileName| >= |FileNamePrefix| + |FileNameSuffix|
  {
    fileName[|FileNamePrefix|..|fileName| - |FileNameSuffix|]
  }

  /**
   * The file name is 20 characters longer than the company name, starts with
   * the prefix, ends with the suffix, and its middle is the company name with
   * every whitespace character turned into '_'.
   */
  lemma FileNameShape(companyName: string)
    ensures var f := PdfFileName(companyName);
      && |f| == |companyName| + 20
      && f[..16] == "Billing-Summary-"
      && f[|f| - 4..] == ".pdf"
      && (forall i :: 16 <= i < |f| - 4 ==> !IsJsWhitespace(f[i]))
      && (forall i :: 0 <= i < |companyName| && !IsJsWhitespace(companyName[i]) ==> f[16 + i] == companyName[i])
  {
    var f := PdfFileName(companyName);
    var m := ReplaceWhitespace(companyName);
    assert f == FileNamePrefix + m + FileNameSuffix;
    assert f[..16] == FileNamePrefix;
    assert f[|f| - 4..] == FileNameSuffix;
    forall i | 16 <= i < |f| - 4 ensures f[i] == m[i - 16] { }
  }

  /** The company part of the file name reads back as the sanitised name, and as the name itself when it has no whitespace. */
  lemma CompanyPartRoundTrip(companyName: string)
    ensures |PdfFileName(companyName)| >= 20
    ensures CompanyPart(PdfFileName(companyName)) == ReplaceWhitespace(companyName)
    ensures (forall i :: 0 <= i < |companyName| ==> !IsJsWhitespace(companyName[i])) ==>
      CompanyPart(PdfFileName(companyName)) == companyName
  {
    var m := ReplaceWhitespace(companyName);
    var f := PdfFileName(companyName);
    assert f[16..|f| - 4] == m;
  }

  /** Different whitespace characters give the same file name: "Acme Corp" and "Acme\tCorp" collide. */
  lemma FileNameCollision()
    ensures PdfFileName("Acme Corp") == PdfFileName("Acme\tCorp") == "Billing-Summary-Acme_Corp.pdf"
  {
    assert ReplaceWhitespace("Acme Corp") == "Acme_Corp";
    assert ReplaceWhitespace("Acme\tCorp") == "Acme_Corp";
  }

  /** The screen for a pair of stored records. */
  function Render(brand: BrandBilling, creator: CreatorPayout): View {
    var amounts := Compute(brand.budget);
    View(
      Card("Brand Billing Details", brand.companyName,
        [Row("GSTIN", Text(brand.gstin)), Row("Billing Email", Text(brand.email)),
         Row("Phone", Text(brand.phone)), Row("Address", Text(brand.address))],
        BrandStep),
      Card("Creator Payout Details", creator.name,
        [Row("PAN", Text(creator.pan)), Row("UPI ID", Text(creator.upi)),
         Row("Bank Account", Text(creator.bankAccount)), Row("IFSC Code", Text(creator.ifsc))],
        CreatorStep),
      [Row("Campaign Budget", Rupees(amounts.budget)), Row("GST (18%)", Rupees(amounts.gst)),
       Row("Total Amount Payable", Rupees(amounts.total))],
      PdfFileName(brand.companyName))
  }

  /**
   * The brand card's Edit asks for the brand step and the creator card's for
   * the creator step; each card shows its record's own fields, in their
   * fixed order; the three financial
   * figures are budget, GST and total with total = budget + GST = 1.18 x budget.
   */
  lemma RenderLayout(brand: BrandBilling, creator: CreatorPayout)
    ensures var v := Render(brand, creator);
      && v.brandCard.editTarget == BrandStep
      && v.creatorCard.editTarget == CreatorStep
      && Labels(v.brandCard.rows) == ["GSTIN", "Billing Email", "Phone", "Address"]
      && Labels(v.creatorCard.rows) == ["PAN", "UPI ID", "Bank Account", "IFSC Code"]
      && Labels(v.financial) == ["Campaign Budget", "GST (18%)", "Total Amount Payable"]
      && v.brandCard.description == brand.companyName
      && (forall i :: 0 <= i < 4 ==>
            v.brandCard.rows[i].value == Text([brand.gstin, brand.email, brand.phone, brand.address][i]))
      && v.creatorCard.description == creator.name
      && (forall i :: 0 <= i < 4 ==>
            v.creatorCard.rows[i].value == Text([creator.pan, creator.upi, creator.bankAccount, creator.ifsc][i]))
      && v.financial[0].value == Rupees(brand.budget)
      && v.financial[2].value.amount == v.financial[0].value.amount + v.financial[1].value.amount
      && v.financial[2].value.amount == brand.budget * 118.0 / 100.0
      && v.pdfFileName == PdfFileName(brand.companyName)
  {
  }
}
