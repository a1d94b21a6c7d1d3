/**
 * The GST arithmetic shared by the summary screen
 * (frontend/components/dashboard/BillingSummary.tsx) and the PDF invoice
 * (frontend/components/dashboard/BillingPdfDocument.tsx): both take 18% of the
 * campaign budget as GST and add it to the budget. Amounts are exact reals;
 * display formatting is not part of the model.
 */
module Invoice {

  /** The GST rate, 0.18, fixed in both components. */
  const GstRate: real := 18.0 / 100.0

  datatype Breakdown = Breakdown(budget: real, gst: real, total: real)

  /** A labelled value on the summary screen or in the PDF: text, or an amount in rupees. */
  datatype RowValue = Text(text: string) | Rupees(amount: real)

  datatype Row = Row(caption: string, value: RowValue)

  function Labels(rows: seq<Row>): (r: seq<string>)
    ensures |r| == |rows|
    ensures forall i :: 0 <= i < |rows| ==> r[i] == rows[i].caption
  {
    seq(|rows|, i requires 0 <= i < |rows| => rows[i].caption)
  }

  /** `gstAmount = budget * gstRate; totalAmount = budget + gstAmount`. */
  function Compute(budget: real): (r: Breakdown)
    ensures r.budget == budget
    ensures r.total == budget * 118.0 / 100.0
    ensures r.total - r.gst == budget
    ensures budget > 0.0 ==> 0.0 < r.gst < r.total
  {
    var gst := budget * GstRate;
    Breakdown(budget, gst, budget + gst)
  }

  /** The budget is recovered from the total by dividing out the GST factor. */
  function BudgetFromTotal(total: real): real {
    total * 100.0 / 118.0
  }

  lemma TotalDeterminesBudget(budget: real)
    ensures BudgetFromTotal(Compute(budget).total) == budget
  {
  }

  /** A budget of 5,00,000 carries 90,000 GST for a total of 5,90,000. */
  lemma SampleInvoice()
    ensures Compute(500000.0) == Breakdown(500000.0, 90000.0, 590000.0)
  {
  }
}
