# Creator matching and billing: a Dafny model

This project models the core of a creator-marketing platform in Dafny. It has three parts.

- **Identifier validation.** The backend checks GSTIN, PAN and IFSC codes with anchored Python regexes (`validate_gstin`, `validate_pan`, `validate_ifsc`). The pydantic records `BrandBillingDetails` and `CreatorPayoutDetails` apply those checks. Three zod schemas in the front end check the same records: the brand billing form, the creator payout form and the campaign-brief form.
- **The billing wizard.** This is a three-tab flow: brand details, then creator details, then a summary with an 18% GST breakdown and a downloadable PDF invoice.
- **Creator scoring.** The scorer gives each creator four component scores: relevance, audience, performance/price and hard constraints. It combines them with weights 0.40 / 0.30 / 0.20 / 0.10. It then ranks the scored list, and a diversification rule breaks up a top three drawn from a single primary vertical.

How the model is built:

- **Regexes.** A small regex engine (module `Regex`) covers the patterns the sources use. Character classes repeat a fixed number of times. `FullMatch` is JavaScript's `/^…$/.test`. `PyDollarMatch` is Python's `re.match` with a final `$`, which also accepts one trailing newline. Each compiled pattern is proved equal to an explicit shape predicate, such as `Validation.GstinShape`.
- **Validation results.** A validation yields either the record, unchanged, or the set of fields in error. An email-address check is a parameter `isEmail: string -> bool`, standing for zod's `.email()` in the forms and pydantic's `EmailStr` in the backend. Where the two meet (`Agreement.BrandFormImpliesBackend`) they are separate parameters.
- **Arithmetic.** Scores and amounts are exact reals.
- **Wizard state.** The wizard's state is the triple `(activeTab, brandData, creatorData)`. User actions are events folded over it.
- **Scored creators.** A scored creator carries a set of `Reason` values.
- **Diversification.** It works on positions in the ranked list.

Modules:

- `Wrappers`, `Chars`, `Regex` and `Records` hold shared definitions.
- `Validation` models validation.py.
- `Schemas` models schemas.py.
- `BrandBillingForm`, `CreatorPayoutForm` and `BrandBriefForm` model the three zod schemas.
- `Invoice`, `BillingSummary`, `BillingPdfDocument` and `BillingFlow` model the wizard.
- `Scoring` and `Diversification` model scoring.py and the ranking in main.py.
- `Agreement` relates the front-end checks to the backend's.

## Model

| member | source | states |
|---|---|---|
| Regex.PyDollarMatchCases | backend/app/validation.py:11 | Python's `re.match` with a trailing `$` accepts exactly the strings the pattern matches in full, plus those same strings followed by one newline. |
| Validation.GstinPatternShape | backend/app/validation.py:10 | The GSTIN regex, matched in full, accepts exactly 15 characters: 2 digits, 5 upper-case letters, 4 digits, an upper-case letter, one of 1-9/A-Z, a literal 'Z', then a digit or upper-case letter. |
| Validation.PanPatternShape | backend/app/validation.py:17 | The PAN regex, matched in full, accepts exactly 5 upper-case letters, 4 digits and an upper-case letter. |
| Validation.IfscPatternShape | backend/app/validation.py:24 | The IFSC regex, matched in full, accepts exactly 4 upper-case letters, a '0', then 6 upper-case letters or digits. |
| Validation.GstinMatchIff | backend/app/validation.py:10-11 | The GSTIN match succeeds exactly on a GSTIN, or on a GSTIN followed by one newline. |
| Validation.PanMatchIff | backend/app/validation.py:17-18 | The PAN match succeeds exactly on a PAN, or on a PAN followed by one newline. |
| Validation.IfscMatchIff | backend/app/validation.py:24-25 | The IFSC match succeeds exactly on an IFSC, or on an IFSC followed by one newline. |
| Validation.ValidateGstin | backend/app/validation.py:8-13 | Accepts exactly a GSTIN, with or without one trailing newline, and returns the input unchanged. Otherwise it fails with an error naming the input. |
| Validation.ValidatePan | backend/app/validation.py:15-20 | Accepts exactly a PAN, with or without one trailing newline, and returns the input unchanged. Otherwise it fails with an error naming the input. |
| Validation.ValidateIfsc | backend/app/validation.py:22-27 | Accepts exactly an IFSC, with or without one trailing newline, and returns the input unchanged. Otherwise it fails with an error naming the input. |
| Validation.AcceptedGstinFacts | backend/app/validation.py:10-13 | An accepted GSTIN, apart from a tolerated final newline, has 15 characters. Its 13th character is never '0' and its 14th is 'Z'. |
| Validation.AcceptedPanIfscLengths | backend/app/validation.py:17-24 | An accepted PAN has 10 characters and an accepted IFSC has 11 with '0' fifth, apart from a tolerated final newline. |
| Validation.AcceptedHaveNoLowercase | backend/app/validation.py:10-24 | Matching is case-sensitive: no accepted identifier contains a lower-case letter. |
| Validation.SampleIdentifiers | backend/app/validation.py:8-27 | Sample GSTIN, PAN and IFSC codes pass. A lower-case GSTIN, a one-character-short PAN, a lower-case IFSC and an IFSC without its fifth-place '0' are rejected. |
| Validation.TrailingNewlineAccepted | backend/app/validation.py:10-13 | A valid GSTIN followed by a newline is accepted and returned with the newline. |
| Schemas.NewMatchedCreator | backend/app/schemas.py:64-69 | A scored creator can be built exactly when 0 <= score <= 100. Otherwise the error carries the score. |
| Schemas.NewBrandBrief | backend/app/schemas.py:52-61 | A brief built without constraints gets the empty mapping, so "noAdultContent" is absent. |
| Schemas.ValidateBrandBillingDetails | backend/app/schemas.py:74-86 | Accepted, unchanged, exactly when the GSTIN passes `validate_gstin`, the email is valid and budget > 0. Otherwise each failing field among GSTIN, email and budget is reported, and no other field is. |
| Schemas.ValidateCreatorPayoutDetails | backend/app/schemas.py:88-106 | Accepted, unchanged, exactly when the PAN and IFSC pass their validators. Otherwise each failing one is reported. |
| Schemas.BrandFreeFields | backend/app/schemas.py:74-79 | The company name, address and phone never decide whether a brand record is accepted. |
| Schemas.CreatorFreeFields | backend/app/schemas.py:88-94 | The name, UPI id, bank account and address never decide whether a creator record is accepted. |
| BrandBillingForm.GstinRegexIsBackendPattern | frontend/components/dashboard/BrandBillingForm.tsx:22 | The form's GSTIN regex is the backend's GSTIN pattern. |
| BrandBillingForm.PhoneRegexShape | frontend/components/dashboard/BrandBillingForm.tsx:27 | The phone regex accepts exactly ten ASCII digits. |
| BrandBillingForm.Validate | frontend/components/dashboard/BrandBillingForm.tsx:19-29 | A record passes, unchanged, exactly when every field check holds: company name of 2+ characters, GSTIN shape, address of 10+ characters, valid email, 10-digit phone, positive budget. Otherwise each failing field, and only those, is reported. |
| BrandBillingForm.DefaultsRejected | frontend/components/dashboard/BrandBillingForm.tsx:44-51 | Submitting the untouched form fails on company name, GSTIN, address, phone and budget. |
| CreatorPayoutForm.RegexesAreBackendPatterns | frontend/components/dashboard/CreatorPayoutForm.tsx:22-33 | The form's PAN and IFSC regexes are the backend's patterns. |
| CreatorPayoutForm.UpiRegexShape | frontend/components/dashboard/CreatorPayoutForm.tsx:26 | The UPI regex accepts exactly a handle of 2 to 256 letters, digits, '.', '-' or '_', then '@', then a provider of 2 to 64 ASCII letters. |
| CreatorPayoutForm.UpiSingleAt | frontend/components/dashboard/CreatorPayoutForm.tsx:26 | An accepted UPI id contains exactly one '@'. |
| CreatorPayoutForm.RegexShapes | frontend/components/dashboard/CreatorPayoutForm.tsx:22-35 | The record's four regex checks (PAN, UPI, bank account of 9 to 18 digits, IFSC) hold exactly when the explicit shapes do. |
| CreatorPayoutForm.Validate | frontend/components/dashboard/CreatorPayoutForm.tsx:19-37 | A record passes, unchanged, exactly when every field check holds. Otherwise each failing field, and only those, is reported. |
| CreatorPayoutForm.OnSubmitClick | frontend/components/dashboard/CreatorPayoutForm.tsx:63-65 | Submit hands the record to the parent exactly when it is valid, and otherwise requests nothing. |
| BillingFlow.CreatorFormWiring | frontend/components/dashboard/billing-flow.tsx:72-75 | On the creator tab, the request the Back button makes (`CreatorPayoutForm.OnBackClick`) acts as the wizard's Back whatever the fields hold, and shows the brand tab. The request the submit button makes (`CreatorPayoutForm.OnSubmitClick`) acts as a creator submit: valid values are stored and the summary opens, invalid ones leave the state alone. |
| BrandBriefForm.Validate | frontend/components/dashboard/brand-brief-form.tsx:30-48 | The brief passes, unchanged, exactly when every check holds: name of 5+ characters, a category, budget >= 10000, exactly two ages, and non-empty locations, goals, tones and platforms. Otherwise each field is reported exactly when its own check fails. |
| BrandBriefForm.DefaultsRejected | frontend/components/dashboard/brand-brief-form.tsx:66-75 | The untouched form fails on exactly name, category, locations, goals, tone and platforms. Its default budget and age range pass. |
| BrandBriefForm.Without | frontend/components/dashboard/brand-brief-form.tsx:165 | Filtering out an id removes every occurrence of it and keeps the other entries in order, with their counts. |
| BrandBriefForm.Toggle | frontend/components/dashboard/brand-brief-form.tsx:164-165 | Checking appends the id. Unchecking removes it and keeps the rest as a subsequence with the same counts. |
| BrandBriefForm.CheckThenUncheck | frontend/components/dashboard/brand-brief-form.tsx:164-165 | Checking and then unchecking an option that was not selected restores the list. |
| BrandBriefForm.UncheckIdempotent | frontend/components/dashboard/brand-brief-form.tsx:165 | Unchecking twice has the same effect as unchecking once. |
| Invoice.Compute | frontend/components/dashboard/BillingSummary.tsx:38-40 | GST is positive and below the total for a positive budget. The total is 1.18 times the budget, and total minus GST gives back the budget. |
| Invoice.TotalDeterminesBudget | frontend/components/dashboard/BillingSummary.tsx:38-40 | The budget can be recovered from the total alone. |
| Invoice.SampleInvoice | frontend/components/dashboard/BillingPdfDocument.tsx:83-85 | A budget of 500000 carries 90000 GST, for a total of 590000. |
| BillingSummary.ReplaceWhitespace | frontend/components/dashboard/BillingSummary.tsx:41 | Keeps the length and every non-whitespace character, turns each whitespace character into '_', and leaves no whitespace. |
| BillingSummary.FileNameShape | frontend/components/dashboard/BillingSummary.tsx:41 | The PDF file name is "Billing-Summary-", then the company name with no whitespace left, then ".pdf", 20 characters longer than the name. |
| BillingSummary.CompanyPartRoundTrip | frontend/components/dashboard/BillingSummary.tsx:41 | The middle of the file name reads back as the sanitised company name, and as the name itself when it contains no whitespace. |
| BillingSummary.FileNameCollision | frontend/components/dashboard/BillingSummary.tsx:41 | "Acme Corp" and "Acme\tCorp" get the same file name. |
| BillingSummary.RenderLayout | frontend/components/dashboard/BillingSummary.tsx:46-98 | Each card's Edit button targets its own step. The brand card shows the company name and that record's GSTIN, email, phone and address; the creator card shows the name and that record's PAN, UPI id, bank account and IFSC; each in its fixed order. The financial rows show the budget, the GST and a total equal to budget plus GST. |
| BillingPdfDocument.DocumentLayout | frontend/components/dashboard/BillingPdfDocument.tsx:90-120 | The header is "Billing Summary & Invoice". The brand, creator and financial sections follow in that order, each with its labels in order. The footer is "Generated on ", the date, then " by Taag Media", so the date reads back from it. |
| BillingPdfDocument.SectionRowsOfRender | frontend/components/dashboard/BillingPdfDocument.tsx:93-118 | Looking up each section by its title in the rendered document yields that section's rows. |
| BillingPdfDocument.ReadBrandRowsBack | frontend/components/dashboard/BillingPdfDocument.tsx:95-98 | The brand section's rows read back as the company name, GSTIN, email and phone. |
| BillingPdfDocument.ReadCreatorRowsBack | frontend/components/dashboard/BillingPdfDocument.tsx:104-108 | The creator section's rows read back as the name, PAN, UPI id, bank account and IFSC. |
| BillingPdfDocument.ReadAmountRowsBack | frontend/components/dashboard/BillingPdfDocument.tsx:114-117 | The financial section's rows read back as the exact budget, GST and total they were printed from. |
| BillingPdfDocument.ReadBackRender | frontend/components/dashboard/BillingPdfDocument.tsx:93-118 | Every printed field of both records, and the three amounts, can be read back from the rendered document. |
| BillingPdfDocument.AddressesNotPrinted | frontend/components/dashboard/BillingPdfDocument.tsx:93-109 | Changing either record's address does not change the document. |
| BillingPdfDocument.OnlyFooterDependsOnDate | frontend/components/dashboard/BillingPdfDocument.tsx:90-120 | Two documents for the same records differ at most in the footer. |
| BillingFlow.EditTab | frontend/components/dashboard/billing-flow.tsx:32-34 | An Edit request never opens the summary tab. |
| BillingFlow.SummaryContent | frontend/components/dashboard/billing-flow.tsx:89-97 | The summary renders exactly when both records are stored, with each card's Edit button targeting its own step. |
| BillingFlow.Step | frontend/components/dashboard/billing-flow.tsx:19-74 | Each action preserves the wizard invariant. An action the screen does not offer, or a submit of invalid values, changes nothing. A valid submit stores the record and opens the next tab. Stored records are never cleared, and only a submit replaces one. Edit, Back and the tab triggers change only the tab. |
| BillingFlow.InitInv | frontend/components/dashboard/billing-flow.tsx:14-17 | The initial state satisfies the invariant and renders no summary. |
| BillingFlow.RunPreservesInv | frontend/components/dashboard/billing-flow.tsx:14-50 | Any sequence of actions preserves the invariant. |
| BillingFlow.RecordsNeverReset | frontend/components/dashboard/billing-flow.tsx:14-29 | Once stored, a record stays stored through any sequence of actions. |
| BillingFlow.Reachable | frontend/components/dashboard/billing-flow.tsx:14-97 | In every state reachable from the start, a creator record implies a brand record, the creator tab implies a brand record, and the summary tab always has a summary to render. |
| BillingFlow.EditBrandThenResubmit | frontend/components/dashboard/billing-flow.tsx:19-34 | From the summary, editing the brand and resubmitting opens the creator tab and keeps the stored creator record. |
| BillingFlow.HappyPath | frontend/components/dashboard/billing-flow.tsx:19-29 | Submitting a valid brand and then a valid creator shows the summary of exactly those records. |
| BillingFlow.LaterTabsLocked | frontend/components/dashboard/billing-flow.tsx:45-48 | Before a brand record is stored, neither the creator tab nor the summary tab can be opened. |
| Scoring.LowerSet | backend/app/scoring.py:34 | The set of lower-cased entries contains exactly the lower-cased list elements, and is no larger than the list. |
| Scoring.ToneMatches | backend/app/scoring.py:34 | The matching tones are exactly the lower-cased tones both sides name, and there are no more of them than the brief has tones. |
| Scoring.CategoryPoints | backend/app/scoring.py:22-30 | 70 points exactly when the lower-cased category is among the lower-cased verticals, 50 exactly when it is not but is among the past brand categories, and 0 otherwise. |
| Scoring.ToneShare | backend/app/scoring.py:34-36 | The tone share is in [0, 1]. It is positive exactly when some tone matches, and 1 exactly when the number of distinct matched tones equals the number of tones in the brief. |
| Scoring.Relevance | backend/app/scoring.py:15-40 | The score is the category points plus 30 times the tone share, within [0, 100]. Primary-vertical match and past-work match are reported exactly when they hold, the latter only without the former. The tone fit is reported, with its counts, exactly when some tone matches. |
| Scoring.RelevanceIgnoresCategoryCase | backend/app/scoring.py:23-27 | Lower-casing the brief's category does not change the relevance outcome. |
| Scoring.GeoOverlapAppend | backend/app/scoring.py:48-50 | The geographic overlap of joined location lists is the sum of their overlaps. |
| Scoring.GeoOverlapUnknown | backend/app/scoring.py:48-50 | Locations missing from the audience map contribute nothing. |
| Scoring.ParseNat | backend/app/scoring.py:64 | A key part parses exactly when it is a non-empty run of ASCII digits. |
| Scoring.ParseShowNat | backend/app/scoring.py:64 | Printing a number in decimal and parsing it back gives the number. |
| Scoring.ParseAgeBand | backend/app/scoring.py:64 | An age-band key parses only when it has one interior '-' and every other character is a digit. |
| Scoring.ParseAgeBandRoundTrip | backend/app/scoring.py:64 | The key "lo-hi" printed from two numbers parses back to those two numbers. |
| Scoring.AgeOverlapNone | backend/app/scoring.py:62-72 | Audience bands that never strictly overlap the target range contribute nothing. |
| Scoring.TouchingBandDoesNotCount | backend/app/scoring.py:66-70 | A band that only touches the target range at one age does not count as overlap. |
| Scoring.ShareScore | backend/app/scoring.py:52-77 | A share gives 0 to 50 points: positive exactly when the share is, and 50 once the share reaches 1. |
| Scoring.ShareScoreMonotone | backend/app/scoring.py:52-77 | A larger share never gives fewer points. |
| Scoring.Audience | backend/app/scoring.py:42-79 | Fails exactly when the brief's target ages are not a pair, reporting how many there were. Otherwise the score is the share points of the summed geographic overlap plus those of the summed age overlap, within [0, 100]. The geography and age reasons are given exactly when their summed shares are positive. |
| Scoring.EngagementPoints | backend/app/scoring.py:88-93 | Above 5% gives 50 points, above 3% gives 30, otherwise 0, each with its reason. |
| Scoring.ValuePoints | backend/app/scoring.py:98-104 | 50 points exactly when views are positive and price is below half the views. 25 exactly when views are positive and price is at least half the views but below them. Otherwise 0, and no views means no value points. |
| Scoring.CostPerViewBounds | backend/app/scoring.py:98-102 | Cost per view below 0.5, or below 1.0, is equivalent to the integer comparisons 2 * price < views and price < views. |
| Scoring.Performance | backend/app/scoring.py:81-106 | The score is the engagement points plus the value points, so one of 0, 25, 30, 50, 55, 75, 80 or 100. Each engagement and value reason is given exactly when its threshold holds. |
| Scoring.PerformanceMonotone | backend/app/scoring.py:81-106 | A higher engagement rate or a lower base price never lowers the performance score. |
| Scoring.SharedPlatforms | backend/app/scoring.py:117 | The shared platforms are exactly those both the brief and the creator list. |
| Scoring.CheckConstraints | backend/app/scoring.py:108-127 | The score is 100 exactly when the creator passes every hard constraint, and 0 otherwise. A failure carries the reason of the first failing check, in the order budget, platform, safety. A pass carries "within budget" and the shared platforms. |
| Scoring.DefaultConstraintsNeverUnsafe | backend/app/scoring.py:122 | With no constraints given, the safety check never disqualifies a creator. |
| Scoring.WeightsSumToOne | backend/app/scoring.py:8-13 | The four weights add up to 1. |
| Scoring.WeightedBounds | backend/app/scoring.py:147-152 | The weighted sum of four components in [0, 100] is in [0, 100]. |
| Scoring.FinalScore | backend/app/scoring.py:129-169 | A failing creator scores 0 with exactly its one constraint reason. For a passing creator whose brief has a pair of target ages, the score is the weighted sum of relevance, audience, performance and 100, at least 10 and at most 100, and the reasons are all four components' reasons together. A passing creator's brief with target ages that are not a pair raises. Every result satisfies the score bound of `MatchedCreator`. |
| Scoring.PerfectScore | backend/app/scoring.py:129-152 | A creator's final score is exactly 100 when, and only when, it passes every constraint and its relevance, audience and performance scores are each 100. |
| Diversification.QualifiedPositions | backend/app/scoring.py:177 | Lists, in increasing order, exactly the positions whose score is positive. |
| Diversification.FirstDifferent | backend/app/scoring.py:196-200 | Finds the first qualified entry after the top three whose primary vertical differs from, or is absent compared with, the dominating one. |
| Diversification.SwapPromote | backend/app/scoring.py:210-213 | Swaps the two positions, adds the promotion reason to the entry now at the earlier one, and changes nothing else. |
| Diversification.Diversify | backend/app/scoring.py:171-220 | The length never changes. The list is unchanged when fewer than three entries qualify, or when the top three qualified entries do not share a primary vertical. |
| Diversification.DiversifyOutcome | backend/app/scoring.py:183-215 | A changed list was dominated and is the swap of the third qualified entry with the first later qualified entry of a different vertical. A dominated list with such an entry is always changed. |
| Diversification.DiversifyPermutes | backend/app/scoring.py:204-213 | The creators with their scores are a permutation of the input. |
| Diversification.DiversifyMovesAtMostTwo | backend/app/scoring.py:210-211 | At most two positions change. |
| Diversification.DiversifyKeepsTopTwo | backend/app/scoring.py:183-213 | The qualified positions are the same before and after, and the first two qualified entries stay where they are. |
| Diversification.DiversifyIdempotent | backend/app/scoring.py:186-215 | Applying the rule to its own result changes nothing more. |
| Diversification.PromotedEntry | backend/app/scoring.py:210-213 | After a swap, the third qualified position holds a qualified creator of a different primary vertical that carries the promotion reason. |
| Diversification.IndexOfDistinct | backend/app/scoring.py:204-205 | In a list of distinct entries, `index` of the entry at a position returns that position. |
| Diversification.Insert | backend/app/main.py:69 | Insertion adds exactly the one entry. |
| Diversification.InsertSorted | backend/app/main.py:69 | Inserting into a list ranked by descending score keeps it ranked. |
| Diversification.SortDesc | backend/app/main.py:69 | Ranking is a permutation of the scored list. |
| Diversification.SortDescSorted | backend/app/main.py:69 | The ranked list is in descending order of score. |
| Diversification.RankAndDiversify | backend/app/main.py:64-72 | The response has one entry per creator. |
| Diversification.RankedSwapAtThirdPlace | backend/app/main.py:69-72 | After ranking, any diversification swap replaces third place with a promoted creator and keeps the first two places. |
| Agreement.GstinAgreement | frontend/components/dashboard/BrandBillingForm.tsx:22 | Whatever the form's GSTIN check accepts, the backend accepts. Both agree on strings without a final newline. With one, only the backend accepts, and exactly when the rest is a GSTIN. |
| Agreement.PanAgreement | frontend/components/dashboard/CreatorPayoutForm.tsx:22 | The same relation holds between the form's PAN check and `validate_pan`. |
| Agreement.IfscAgreement | frontend/components/dashboard/CreatorPayoutForm.tsx:33 | The same relation holds between the form's IFSC check and `validate_ifsc`. |
| Agreement.BrandFormImpliesBackend | backend/app/schemas.py:74-86 | A brand record the form accepts is accepted unchanged by `BrandBillingDetails`, provided every address zod's `.email()` accepts is also accepted by pydantic's `EmailStr`; the two email checks are separate parameters. |
| Agreement.EmailInclusionNeeded | backend/app/schemas.py:78 | Without that proviso, a record the form accepts but whose email `EmailStr` refuses is rejected on the email field alone. |
| Agreement.CreatorFormImpliesBackend | backend/app/schemas.py:88-106 | A creator record the form accepts is accepted unchanged by `CreatorPayoutDetails`. |
| Agreement.BackendLaxerThanBrandForm | backend/app/schemas.py:75-79 | A one-letter company name, a short address and a non-numeric phone pass the backend but fail exactly those three form fields. |
| Agreement.BackendLaxerThanCreatorForm | backend/app/schemas.py:91 | A UPI id without '@' passes the backend but fails the form on that field alone. |
| Agreement.SummaryAndPdfAmountsAgree | frontend/components/dashboard/BillingPdfDocument.tsx:83-85 | The summary screen and the PDF show the same budget, GST and total. |

## Left out

- Database access, the HTTP routes, authentication and the match console: these are I/O around the core. The file backend/app/main.py contributes only its ranking step (lines 64-72). The earlier duplicate `/api/match` handler, which sorts without diversifying, is not modelled.
- Logging (`print` in the diversification rule, `console.log` in the forms), sample and template loaders, the `usePDF` hook, modals and the download link: they only have side effects.
- Number, currency, percentage and date formatting. Amounts and shares are exact reals, and the reason strings become `Reason` values that carry their numbers unformatted. The generation date is a string parameter.
- Floating point: the model uses exact real arithmetic, so it does not show how binary floating point rounds intermediate scores.
- Scoring.FinalScore: does not round the weighted score to two decimals. backend/app/scoring.py:167 stores `round(final_score, 2)` as the creator's score, and backend/app/main.py:69 sorts on that stored value. Creators whose exact scores differ but agree to two decimals tie in the source, and its stable sort keeps them in input order. The model ranks them by the exact score, so their order can differ. Rounding never moves a passing score (at least 10) to 0 or past 100, so which creators qualify and the score bounds are unaffected.
- Scoring.FinalScore: the reasons are a set, because the source returns `list(set(...))`, whose order Python leaves unspecified.
- Schemas.ValidateBrandBillingDetails: email validity is a parameter. pydantic's `EmailStr` may also normalise the address it returns, while the model keeps the email as given.
- BrandBillingForm.Validate: email validity is a parameter standing for zod's `.email()`. String lengths count characters, whereas JavaScript counts UTF-16 code units, so they differ for characters outside the Basic Multilingual Plane.
- CreatorPayoutForm.Validate: the `.min(2)` name and `.min(10)` address checks count characters, whereas JavaScript counts UTF-16 code units, so a single emoji (two code units, one character) passes the name check in the source but fails it in the model.
- BrandBriefForm.Validate: the `.min(5)` name check counts characters, whereas JavaScript counts UTF-16 code units, so names with characters outside the Basic Multilingual Plane are measured differently.
- Agreement.BrandFormImpliesBackend: assumes that every address zod's `.email()` accepts, pydantic's `EmailStr` accepts too. Neither email validator is modelled, so this inclusion is a precondition rather than a proved fact; `Agreement.EmailInclusionNeeded` shows what happens without it.
- BrandBriefForm.Validate: `z.coerce.number()` is not modelled; the budget arrives as a number.
- Scoring.ParseNat: accepts only plain ASCII digit runs. Python's `int()` also accepts a sign, surrounding whitespace, underscores between digits and non-ASCII decimal digits, so the model skips some keys Python would parse.
- Chars.Lower: lower-cases ASCII letters only. Python's `str.lower()` covers all of Unicode.
- Scoring.Audience: the audience-age dictionary is a sequence of key/share pairs in iteration order. The geography dictionary is a map, because it is only looked up.
- Diversification.Diversify: works on positions. Python finds the swapped entries with `list.index`, which returns the first equal entry; `Diversification.IndexOfDistinct` shows the two agree when entries are distinct. Duplicate equal entries are not modelled. The in-place mutation of the caller's list becomes a returned list.
- Diversification.SortDesc: ties keep their input order, as Python's stable sort does, but stability is not proved.
- BillingFlow.Step: an action the screen cannot offer is modelled as a no-op rather than excluded, for example a disabled tab trigger or Back outside the creator tab.
- React rendering details beyond the content (styling, icons, layout components) are not modelled. The summary and PDF are modelled as their labelled rows.
