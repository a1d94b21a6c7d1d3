/**
 * The invoice document (frontend/components/dashboard/BillingPdfDocument.tsx):
 * a header, three sections in a fixed order (brand, creator, financial) and a
 * footer carrying the generation date. Styling and page geometry are not
 * modelled; the date is a parameter because it is read from the clock.
 */
module BillingPdfDocument {
  import opened Wrappers
  import opened Records
  import opened Invoice

  datatype Section = Section(title: string, rows: seq<Row>)

  datatype Document = Document(header: string, sections: seq<Section>, footer: string)

  const BrandTitle: string := "Brand Billing Details"
  const CreatorTitle: string := "Creator Payout Details"
  const FinancialTitle: string := "Financial Summary"

  /** The words around the date in the footer. */
  const FooterOpening: string := "Generated on "
  const FooterClosing: string := " by Taag Media"

  function BrandRows(brand: BrandBilling): seq<Row> {
    [Row("Company Name:", Text(brand.companyName)), Row("GSTIN:", Text(brand.gstin)),
     Row("Email:", Text(brand.email)), Row("Phone:", Text(brand.phone))]
  }

  function CreatorRows(creator: CreatorPayout): seq<Row> {
    [Row("Name:", Text(creator.name)), Row("PAN:", Text(creator.pan)),
     Row("UPI ID:", Text(creator.upi)), Row("Bank Account:", Text(creator.bankAccount)),
     Row("IFSC Code:", Text(creator.ifsc))]
  }

  function FinancialRows(amounts: Breakdown): seq<Row> {
    [Row("Campaign Budget:", Rupees(amounts.budget)), Row("GST (18%):", Rupees(amounts.gst)),
     Row("Total Amount Payable:", Rupees(amounts.total))]
  }

  function Render(brand: BrandBilling, creator: CreatorPayout, date: string): Document {
    Document(
      "Billing Summary & Invoice",
      [Section(BrandTitle, BrandRows(brand)),
       Section(CreatorTitle, CreatorRows(creator)),
       Section(FinancialTitle, FinancialRows(Compute(brand.budget)))],
      FooterOpening + date + FooterClosing)
  }

  /** The value of the first row carrying `caption`. */
  function Lookup(rows: seq<Row>, caption: string): Option<RowValue> {
    if rows == [] then None
    else if rows[0].caption == caption then Some(rows[0].value)
    else Lookup(rows[1..], caption)
  }

  /** The rows of the first section with the given title. */
  function FindSection(sections: seq<Section>, title: string): Option<seq<Row>> {
    if sections == [] then None
    else if sections[0].title == title then Some(sections[0].rows)
    else FindSection(sections[1..], title)
  }

  function SectionRows(doc: Document, title: string): Option<seq<Row>> {
    FindSection(doc.sections, title)
  }

  function TextOf(v: Option<RowValue>): Option<string> {
    if v.Some? && v.value.Text? then Some(v.value.text) else None
  }

  function AmountOf(v: Option<RowValue>): Option<real> {
    if v.Some? && v.value.Rupees? then Some(v.value.amount) else None
  }

  /** What a reader of the printed brand section learns: company name, GSTIN, email and phone. */
  function ReadBrand(doc: Document): Option<(string, string, string, string)> {
    match SectionRows(doc, BrandTitle)
    case None => None
    case Some(rows) => ReadBrandRows(rows)
  }

  function ReadBrandRows(rows: seq<Row>): Option<(string, string, string, string)> {
      var name, gstin, email, phone :=
        TextOf(Lookup(rows, "Company Name:")), TextOf(Lookup(rows, "GSTIN:")),
        TextOf(Lookup(rows, "Email:")), TextOf(Lookup(rows, "Phone:"));
      if name.Some? && gstin.Some? && email.Some? && phone.Some? then
        Some((name.value, gstin.value, email.value, phone.value))
      else None
  }

  /** What a reader of the printed creator section learns: name, PAN, UPI id, bank account and IFSC. */
  function ReadCreator(doc: Document): Option<(string, string, string, string, string)> {
    match SectionRows(doc, CreatorTitle)
    case None => None
    case Some(rows) => ReadCreatorRows(rows)
  }

  function ReadCreatorRows(rows: seq<Row>): Option<(string, string, string, string, string)> {
      var name, pan, upi, account, ifsc :=
        TextOf(Lookup(rows, "Name:")), TextOf(Lookup(rows, "PAN:")), TextOf(Lookup(rows, "UPI ID:")),
        TextOf(Lookup(rows, "Bank Account:")), TextOf(Lookup(rows, "IFSC Code:"));
      if name.Some? && pan.Some? && upi.Some? && account.Some? && ifsc.Some? then
        Some((name.value, pan.value, upi.value, account.value, ifsc.value))
      else None
  }

  /** The three printed amounts: budget, GST, total. */
  function ReadAmounts(doc: Document): Option<Breakdown> {
    match SectionRows(doc, FinancialTitle)
    case None => None
    case Some(rows) => ReadAmountRows(rows)
  }

  function ReadAmountRows(rows: seq<Row>): Option<Breakdown> {
      var budget, gst, total :=
        AmountOf(Lookup(rows, "Campaign Budget:")), AmountOf(Lookup(rows, "GST (18%):")),
        AmountOf(Lookup(rows, "Total Amount Payable:"));
      if budget.Some? && gst.Some? && total.Some? then Some(Breakdown(budget.value, gst.value, total.value))
      else None
  }

  /**
   * The fixed header; exactly three sections, always brand, creator, financial,
   * the rows of each in their fixed order; and a footer from which the
   * generation date reads back between its fixed opening and closing words.
   */
  lemma DocumentLayout(brand: BrandBilling, creator: CreatorPayout, date: string)
    ensures var d := Render(brand, creator, date);
      && d.header == "Billing Summary & Invoice"
      && |d.footer| == |FooterOpening| + |date| + |FooterClosing|
      && d.footer[..|FooterOpening|] == FooterOpening
      && d.footer[|FooterOpening|..|FooterOpening| + |date|] == date
      && d.footer[|FooterOpening| + |date|..] == FooterClosing
    ensures var d := Render(brand, creator, date);
      && |d.sections| == 3
      && d.sections[0].title == BrandTitle
      && d.sections[1].title == CreatorTitle
      && d.sections[2].title == FinancialTitle
      && Labels(d.sections[0].rows) == ["Company Name:", "GSTIN:", "Email:", "Phone:"]
      && Labels(d.sections[1].rows) == ["Name:", "PAN:", "UPI ID:", "Bank Account:", "IFSC Code:"]
      && Labels(d.sections[2].rows) == ["Campaign Budget:", "GST (18%):", "Total Amount Payable:"]
  {
    var f := Render(brand, creator, date).footer;
    assert f == FooterOpening + date + FooterClosing;
    assert f[..|FooterOpening|] == FooterOpening;
    assert f[|FooterOpening|..|FooterOpening| + |date|] == date;
    assert f[|FooterOpening| + |date|..] == FooterClosing;
  }

  lemma SectionRowsOfRender(brand: BrandBilling, creator: CreatorPayout, date: string)
    ensures SectionRows(Render(brand, creator, date), BrandTitle) == Some(BrandRows(brand))
    ensures SectionRows(Render(brand, creator, date), CreatorTitle) == Some(CreatorRows(creator))
    ensures SectionRows(Render(brand, creator, date), FinancialTitle) == Some(FinancialRows(Compute(brand.budget)))
  {
    var ss := Render(brand, creator, date).sections;
    assert ss[1..][1..] == [ss[2]];
    assert FindSection(ss, CreatorTitle) == FindSection(ss[1..], CreatorTitle);
    assert FindSection(ss, FinancialTitle) == FindSection(ss[1..], FinancialTitle);
    assert FindSection(ss[1..], FinancialTitle) == FindSection(ss[1..][1..], FinancialTitle);
  }

  /** The first row carrying a caption decides the lookup. */
  lemma {:induction false} LookupFirst(rows: seq<Row>, j: nat, caption: string)
    requires j < |rows| && rows[j].caption == caption
    requires forall k :: 0 <= k < j ==> rows[k].caption != caption
    ensures Lookup(rows, caption) == Some(rows[j].value)
  {
    if j > 0 {
      LookupFirst(rows[1..], j - 1, caption);
    }
  }

  /** A lookup succeeds exactly when some row carries the caption, and then yields that row's value. */
  lemma {:induction false} LookupFinds(rows: seq<Row>, caption: string)
    ensures Lookup(rows, caption).Some? <==> exists i :: 0 <= i < |rows| && rows[i].caption == caption
    ensures Lookup(rows, caption).Some? ==>
      exists i :: 0 <= i < |rows| && rows[i].caption == caption && rows[i].value == Lookup(rows, caption).value
    decreases |rows|
  {
    if rows != [] && rows[0].caption != caption {
      LookupFinds(rows[1..], caption);
      if exists i :: 0 <= i < |rows| && rows[i].caption == caption {
        var i :| 0 <= i < |rows| && rows[i].caption == caption;
        assert rows[1..][i - 1].caption == caption;
      }
      if Lookup(rows, caption).Some? {
        var i :| 0 <= i < |rows[1..]| && rows[1..][i].caption == caption && rows[1..][i].value == Lookup(rows, caption).value;
        assert rows[i + 1] == rows[1..][i];
      }
    }
  }

  lemma ReadBrandRowsBack(brand: BrandBilling)
    ensures ReadBrandRows(BrandRows(brand)) == Some((brand.companyName, brand.gstin, brand.email, brand.phone))
  {
    var rs := BrandRows(brand);
    LookupFirst(rs, 0, "Company Name:");
    LookupFirst(rs, 1, "GSTIN:");
    LookupFirst(rs, 2, "Email:");
    LookupFirst(rs, 3, "Phone:");
  }

  lemma ReadCreatorRowsBack(creator: CreatorPayout)
    ensures ReadCreatorRows(CreatorRows(creator)) ==
      Some((creator.name, creator.pan, creator.upi, creator.bankAccount, creator.ifsc))
  {
    var rs := CreatorRows(creator);
    LookupFirst(rs, 0, "Name:");
    LookupFirst(rs, 1, "PAN:");
    LookupFirst(rs, 2, "UPI ID:");
    LookupFirst(rs, 3, "Bank Account:");
    LookupFirst(rs, 4, "IFSC Code:");
  }

  lemma ReadAmountRowsBack(amounts: Breakdown)
    ensures ReadAmountRows(FinancialRows(amounts)) == Some(amounts)
  {
    var rs := FinancialRows(amounts);
    LookupFirst(rs, 0, "Campaign Budget:");
    LookupFirst(rs, 1, "GST (18%):");
    LookupFirst(rs, 2, "Total Amount Payable:");
  }

  /**
   * Every printed detail is the record field itself: reading the document back
   * yields the brand's name, GSTIN, email and phone, the creator's name, PAN,
   * UPI id, account and IFSC, and the invoice breakdown of the budget.
   */
  lemma ReadBackRender(brand: BrandBilling, creator: CreatorPayout, date: string)
    ensures ReadBrand(Render(brand, creator, date)) == Some((brand.companyName, brand.gstin, brand.email, brand.phone))
    ensures ReadCreator(Render(brand, creator, date)) ==
      Some((creator.name, creator.pan, creator.upi, creator.bankAccount, creator.ifsc))
    ensures ReadAmounts(Render(brand, creator, date)) == Some(Compute(brand.budget))
  {
    SectionRowsOfRender(brand, creator, date);
    ReadBrandRowsBack(brand);
    ReadCreatorRowsBack(creator);
    ReadAmountRowsBack(Compute(brand.budget));
  }

  /** Neither address is printed: records that differ only in their addresses give the same document. */
  lemma AddressesNotPrinted(brand: BrandBilling, creator: CreatorPayout, date: string, a1: string, a2: string)
    ensures Render(brand.(address := a1), creator.(address := a2), date) == Render(brand, creator, date)
  {
  }

  /** The footer date is the only content that does not come from the two records. */
  lemma OnlyFooterDependsOnDate(brand: BrandBilling, creator: CreatorPayout, d1: string, d2: string)
    ensures Render(brand, creator, d1).header == Render(brand, creator, d2).header
    ensures Render(brand, creator, d1).sections == Render(brand, creator, d2).sections
  {
  }
}
