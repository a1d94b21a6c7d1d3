/**
 * The pydantic record contracts of the backend (backend/app/schemas.py):
 * the creator and campaign-brief records the scorer reads, the scored result
 * `MatchedCreator` with its score bound, and the two billing records whose
 * identifiers go through the checks of module Validation. pydantic reports
 * every failing field, so acceptance yields the record or the set of fields
 * in error.
 */
module Schemas {
  import opened Wrappers
  import opened Records
  import Validation

  /** A value of `constraints: Dict[str, Union[bool, int]]`. */
  datatype ConstraintValue = Flag(flag: bool) | Count(count: int)

  /**
   * A creator as the scorer sees it. `audienceAge` keeps the dictionary's
   * items in iteration order; `audienceGeo` is only ever looked up.
   */
  datatype Creator = Creator(
    id: int,
    handle: string,
    verticals: seq<string>,
    platforms: seq<string>,
    audienceGeo: map<string, real>,
    audienceAge: seq<(string, real)>,
    avgViews: int,
    engagementRate: real,
    pastBrandCategories: seq<string>,
    contentTone: seq<string>,
    safetyFlags: map<string, bool>,
    basePriceINR: int)

  /** The body of a match request. */
  datatype BrandBrief = BrandBrief(
    category: string,
    budgetINR: int,
    targetLocations: seq<string>,
    targetAges: seq<int>,
    tone: seq<string>,
    platforms: seq<string>,
    constraints: map<string, ConstraintValue>)

  /**
   * Why a creator scored as it did: the reason strings of the scorer,
   * carrying the numbers they print but not their formatting.
   */
  datatype Reason =
    | PrimaryVerticalMatch
    | PastWorkMatch
    | ToneFit(matched: nat, wanted: nat)
    | GeographicOverlap(geoOverlap: real)
    | TargetAgeMatch(ageOverlap: real)
    | HighEr(highRate: real)
    | GoodEr(goodRate: real)
    | ExcellentValue
    | GoodValue
    | PriceOverBudget
    | NoRequiredPlatform
    | UnsafeContent
    | WithinBudget
    | OnPlatform(shared: set<string>)
    | PromotedForDiversity

  /** A scored creator; the reasons are a set because the scorer deduplicates them through a Python `set`. */
  datatype MatchedCreator = MatchedCreator(creator: Creator, score: real, reasons: set<Reason>)

  datatype ScoreError = ScoreOutOfRange(score: real)

  /** Constructing `MatchedCreator`: `Field(..., ge=0, le=100)` on the score. */
  function NewMatchedCreator(creator: Creator, score: real, reasons: set<Reason>): (r: Result<MatchedCreator, ScoreError>)
    ensures r.Ok? <==> 0.0 <= score <= 100.0
    ensures r.Ok? ==> r.value.creator == creator && r.value.score == score && r.value.reasons == reasons
    ensures r.Err? ==> r.error == ScoreOutOfRange(score)
  {
    if 0.0 <= score && score <= 100.0 then Ok(MatchedCreator(creator, score, reasons))
    else Err(ScoreOutOfRange(score))
  }

  /** A brief built without `constraints` gets the empty mapping from `default_factory=dict`. */
  function NewBrandBrief(category: string, budgetINR: int, targetLocations: seq<string>, targetAges: seq<int>,
                         tone: seq<string>, platforms: seq<string>): (r: BrandBrief)
    ensures r.constraints == map[]
    ensures "noAdultContent" !in r.constraints
    ensures r.category == category && r.budgetINR == budgetINR && r.tone == tone && r.platforms == platforms
  {
    BrandBrief(category, budgetINR, targetLocations, targetAges, tone, platforms, map[])
  }

  datatype DetailsField = Gstin | Email | Budget | Pan | Ifsc

  /** What `BrandBillingDetails` checks: the GSTIN validator, `EmailStr`, and `budget > 0`. */
  predicate BrandDetailsValid(v: BrandBilling, isEmail: string -> bool) {
    && Validation.ShapeOrShapeNewline(Validation.GstinShape, v.gstin)
    && isEmail(v.email)
    && v.budget > 0.0
  }

  /**
   * Building `BrandBillingDetails`. The company name, address and phone are
   * accepted as any string; the GSTIN validator returns its input, so an
   * accepted record is the input itself.
   */
  function ValidateBrandBillingDetails(v: BrandBilling, isEmail: string -> bool): (r: Result<BrandBilling, set<DetailsField>>)
    ensures r.Ok? <==> BrandDetailsValid(v, isEmail)
    ensures r.Ok? ==> r.value == v
    ensures r.Err? ==> r.error != {} && r.error <= {Gstin, Email, Budget}
    ensures r.Err? ==> (Gstin in r.error <==> !Validation.ShapeOrShapeNewline(Validation.GstinShape, v.gstin))
    ensures r.Err? ==> (Email in r.error <==> !isEmail(v.email))
    ensures r.Err? ==> (Budget in r.error <==> v.budget <= 0.0)
  {
    var errors :=
      (if Validation.ValidateGstin(v.gstin).Ok? then {} else {Gstin})
      + (if isEmail(v.email) then {} else {Email})
      + (if v.budget > 0.0 then {} else {Budget});
    if errors == {} then Ok(v) else Err(errors)
  }

  predicate CreatorDetailsValid(v: CreatorPayout) {
    && Validation.ShapeOrShapeNewline(Validation.PanShape, v.pan)
    && Validation.ShapeOrShapeNewline(Validation.IfscShape, v.ifsc)
  }

  /** Building `CreatorPayoutDetails`: only the PAN and the IFSC are checked. */
  function ValidateCreatorPayoutDetails(v: CreatorPayout): (r: Result<CreatorPayout, set<DetailsField>>)
    ensures r.Ok? <==> CreatorDetailsValid(v)
    ensures r.Ok? ==> r.value == v
    ensures r.Err? ==> r.error != {} && r.error <= {Pan, Ifsc}
    ensures r.Err? ==> (Pan in r.error <==> !Validation.ShapeOrShapeNewline(Validation.PanShape, v.pan))
    ensures r.Err? ==> (Ifsc in r.error <==> !Validation.ShapeOrShapeNewline(Validation.IfscShape, v.ifsc))
  {
    var errors :=
      (if Validation.ValidatePan(v.pan).Ok? then {} else {Pan})
      + (if Validation.ValidateIfsc(v.ifsc).Ok? then {} else {Ifsc});
    if errors == {} then Ok(v) else Err(errors)
  }

  /** Name, UPI id, bank account and address never decide acceptance of a creator record. */
  lemma CreatorFreeFields(v: CreatorPayout, name: string, upi: string, account: string, address: string)
    ensures ValidateCreatorPayoutDetails(v.(name := name, upi := upi, bankAccount := account, address := address)).Ok?
      <==> ValidateCreatorPayoutDetails(v).Ok?
  {
  }

  /** Company name, address and phone never decide acceptance of a brand record. */
  lemma BrandFreeFields(v: BrandBilling, isEmail: string -> bool, name: string, address: string, phone: string)
    ensures ValidateBrandBillingDetails(v.(companyName := name, address := address, phone := phone), isEmail).Ok?
      <==> ValidateBrandBillingDetails(v, isEmail).Ok?
  {
  }
}
