/**
 * The two billing records the wizard collects. The front end infers them
 * from its form schemas (`BrandBillingData`, `CreatorPayoutData`) and the
 * backend declares the same fields (`BrandBillingDetails`,
 * `CreatorPayoutDetails`). The budget is a number, modelled exactly as a real.
 */
module Records {

  datatype BrandBilling = BrandBilling(
    companyName: string,
    gstin: string,
    address: string,
    email: string,
    phone: string,
    budget: real)

  datatype CreatorPayout = CreatorPayout(
    name: string,
    pan: string,
    upi: string,
    bankAccount: string,
    ifsc: string,
    address: string)
}
