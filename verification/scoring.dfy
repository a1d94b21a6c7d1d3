/**
 * Creator scoring (backend/app/scoring.py): hard-constraint gating, three
 * component scores out of 100 each, and their weighted sum. Rates, weights
 * and percentages are exact reals; the scorer's `round(final_score, 2)` and
 * the text of its reasons are not modelled (module Schemas keeps the numbers
 * a reason prints, not the string).
 */
module Scoring {
  import opened Wrappers
  import opened Chars
  import opened Schemas

  const RelevanceWeight: real := 0.40
  const AudienceWeight: real := 0.30
  const PerformanceWeight: real := 0.20
  const ConstraintsWeight: real := 0.10

  /** A component score and the reasons it appends, in order. */
  datatype Component = Component(score: real, reasons: seq<Reason>)

  /** `brief.targetAges` did not unpack into a minimum and a maximum age. */
  datatype UnpackError = TargetAgesNotPair(count: nat)

  function Min(a: real, b: real): real { if a <= b then a else b }

  function MinInt(a: int, b: int): int { if a <= b then a else b }

  function MaxInt(a: int, b: int): int { if a >= b then a else b }

  /** `d.get(k)`. */
  function Get<V>(m: map<string, V>, k: string): (r: Option<V>)
    ensures r.Some? <==> k in m
    ensures r.Some? ==> r.value == m[k]
  {
    if k in m then Some(m[k]) else None
  }

  /* ---------------------------------------------------------------- relevance */

  /** `[v.lower() for v in xs]`. */
  function LowerAll(xs: seq<string>): (r: seq<string>)
    ensures |r| == |xs|
    ensures forall i :: 0 <= i < |xs| ==> r[i] == Lower(xs[i])
  {
    seq(|xs|, i requires 0 <= i < |xs| => Lower(xs[i]))
  }

  /** `set(x.lower() for x in xs)`: never larger than the list it comes from. */
  function LowerSet(xs: seq<string>): (r: set<string>)
    ensures |r| <= |xs|
    ensures forall x :: x in r <==> x in LowerAll(xs)
    decreases |xs|
  {
    if xs == [] then {}
    else
      assert LowerAll(xs) == [Lower(xs[0])] + LowerAll(xs[1..]);
      {Lower(xs[0])} + LowerSet(xs[1..])
  }

  /** The brief's tones that the creator also uses, compared without case. */
  function ToneMatches(brief: BrandBrief, c: Creator): (r: set<string>)
    ensures |r| <= |brief.tone|
    ensures forall t :: t in r <==> t in LowerSet(brief.tone) && t in LowerSet(c.contentTone)
  {
    var m := LowerSet(brief.tone) * LowerSet(c.contentTone);
    assert m <= LowerSet(brief.tone);
    SubsetCardinality(m, LowerSet(brief.tone));
    m
  }

  lemma SubsetCardinality<T>(a: set<T>, b: set<T>)
    requires a <= b
    ensures |a| <= |b|
  {
    assert b == a + (b - a);
  }

  lemma RatioAtMostOne(a: nat, b: nat)
    requires 0 < a <= b
    ensures 0.0 < a as real / b as real <= 1.0
  {
  }

  /** Whether the category, lower-cased, is one of the lower-cased entries. */
  predicate CategoryIn(category: string, xs: seq<string>) {
    Lower(category) in LowerAll(xs)
  }

  /** 70 points for a vertical match, otherwise 50 for a past-work match, otherwise none. */
  function CategoryPoints(brief: BrandBrief, c: Creator): (r: real)
    ensures r in {0.0, 50.0, 70.0}
    ensures r == 70.0 <==> CategoryIn(brief.category, c.verticals)
    ensures r == 50.0 <==> !CategoryIn(brief.category, c.verticals) && CategoryIn(brief.category, c.pastBrandCategories)
  {
    if CategoryIn(brief.category, c.verticals) then 70.0
    else if CategoryIn(brief.category, c.pastBrandCategories) then 50.0
    else 0.0
  }

  /** The share of the brief's tones the creator uses: matched tones over all tones, 0 when none match. */
  function ToneShare(brief: BrandBrief, c: Creator): (r: real)
    ensures 0.0 <= r <= 1.0
    ensures r > 0.0 <==> ToneMatches(brief, c) != {}
    ensures r == 1.0 <==> ToneMatches(brief, c) != {} && |ToneMatches(brief, c)| == |brief.tone|
  {
    var m := ToneMatches(brief, c);
    if m == {} then 0.0
    else
      var n, d := |m|, |brief.tone|;
      RatioAtMostOne(n, d);
      RatioIsOne(n, d);
      n as real / d as real
  }

  /** A share in (0, 1] contributes between 0 and 30 points. */
  lemma ScaledShare(x: real)
    requires 0.0 < x <= 1.0
    ensures 0.0 < x * 30.0 <= 30.0
  {
  }

  /** A ratio of two counts is 1 exactly when the counts agree. */
  lemma RatioIsOne(n: nat, d: nat)
    requires 0 < n <= d
    ensures n as real / d as real == 1.0 <==> n == d
  {
    if n as real / d as real == 1.0 {
      assert n as real == d as real;
    }
  }

  /**
   * `calculate_relevance_score`: 70 for a vertical match, otherwise 50 for a
   * past-work match, plus up to 30 for the share of the brief's tones the
   * creator uses.
   */
  function Relevance(brief: BrandBrief, c: Creator): (r: Component)
    ensures 0.0 <= r.score <= 100.0
    ensures PrimaryVerticalMatch in r.reasons <==> CategoryIn(brief.category, c.verticals)
    ensures PastWorkMatch in r.reasons <==>
      !CategoryIn(brief.category, c.verticals) && CategoryIn(brief.category, c.pastBrandCategories)
    ensures PrimaryVerticalMatch in r.reasons ==> 70.0 <= r.score
    ensures PastWorkMatch in r.reasons ==> 50.0 <= r.score <= 80.0
    ensures PrimaryVerticalMatch !in r.reasons && PastWorkMatch !in r.reasons ==> r.score <= 30.0
    ensures ToneMatches(brief, c) == {} ==> r.score in {0.0, 50.0, 70.0}
    ensures ToneMatches(brief, c) != {} <==> ToneFit(|ToneMatches(brief, c)|, |brief.tone|) in r.reasons
    ensures r.score == CategoryPoints(brief, c) + ToneShare(brief, c) * 30.0
  {
    var points, reasons := CategoryPoints(brief, c), CategoryReasons(brief, c);
    var m := ToneMatches(brief, c);
    if m == {} then
      assert ToneShare(brief, c) == 0.0;
      Component(points, reasons)
    else
      var share := |m| as real / |brief.tone| as real;
      assert share == ToneShare(brief, c);
      ScaledShare(share);
      Component(points + share * 30.0, reasons + [ToneFit(|m|, |brief.tone|)])
  }

  /** The category reason: a vertical match, otherwise a past-work match, otherwise none. */
  function CategoryReasons(brief: BrandBrief, c: Creator): (r: seq<Reason>)
    ensures PrimaryVerticalMatch in r <==> CategoryPoints(brief, c) == 70.0
    ensures PastWorkMatch in r <==> CategoryPoints(brief, c) == 50.0
    ensures forall x :: x in r ==> x == PrimaryVerticalMatch || x == PastWorkMatch
  {
    if CategoryIn(brief.category, c.verticals) then [PrimaryVerticalMatch]
    else if CategoryIn(brief.category, c.pastBrandCategories) then [PastWorkMatch]
    else []
  }

  /** The category is compared without case: lower-casing it first changes nothing. */
  lemma RelevanceIgnoresCategoryCase(brief: BrandBrief, c: Creator)
    ensures Relevance(brief.(category := Lower(brief.category)), c) == Relevance(brief, c)
  {
    LowerIdempotent(brief.category);
  }

  /* ----------------------------------------------------------------- audience */

  /** `sum(creator.audienceGeo.get(loc, 0) for loc in targetLocations)`. */
  function GeoOverlap(locs: seq<string>, geo: map<string, real>): real
    decreases |locs|
  {
    if locs == [] then 0.0
    else (if locs[0] in geo then geo[locs[0]] else 0.0) + GeoOverlap(locs[1..], geo)
  }

  /** The overlap adds up location by location, so listing a location twice counts it twice. */
  lemma {:induction false} GeoOverlapAppend(a: seq<string>, b: seq<string>, geo: map<string, real>)
    ensures GeoOverlap(a + b, geo) == GeoOverlap(a, geo) + GeoOverlap(b, geo)
    decreases |a|
  {
    if a == [] {
      assert a + b == b;
    } else {
      assert (a + b)[0] == a[0];
      assert (a + b)[1..] == a[1..] + b;
      GeoOverlapAppend(a[1..], b, geo);
    }
  }

  /** Locations the creator has no audience figure for contribute nothing. */
  lemma {:induction false} GeoOverlapUnknown(locs: seq<string>, geo: map<string, real>)
    requires forall i :: 0 <= i < |locs| ==> locs[i] !in geo
    ensures GeoOverlap(locs, geo) == 0.0
    decreases |locs|
  {
    if locs != [] {
      GeoOverlapUnknown(locs[1..], geo);
    }
  }

  /** The value of a non-empty run of ASCII digits. */
  function DigitsValue(s: string): nat
    requires forall i :: 0 <= i < |s| ==> IsDigit(s[i])
    decreases |s|
  {
    if s == [] then 0
    else
      assert IsDigit(s[|s| - 1]);
      DigitsValue(s[..|s| - 1]) * 10 + (s[|s| - 1] as int - '0' as int)
  }

  /** `int(s)` on a plain decimal numeral. */
  function ParseNat(s: string): (r: Option<nat>)
    ensures r.Some? <==> |s| > 0 && forall i :: 0 <= i < |s| ==> IsDigit(s[i])
  {
    if |s| > 0 && forall i :: 0 <= i < |s| ==> IsDigit(s[i]) then Some(DigitsValue(s)) else None
  }

  /** The decimal numeral of `n`, the inverse of `ParseNat`. */
  function ShowNat(n: nat): (r: string)
    ensures |r| > 0 && forall i :: 0 <= i < |r| ==> IsDigit(r[i])
    decreases n
  {
    var d := ((n % 10) + '0' as int) as char;
    if n < 10 then [d] else ShowNat(n / 10) + [d]
  }

  lemma {:induction false} ParseShowNat(n: nat)
    ensures ParseNat(ShowNat(n)) == Some(n)
    decreases n
  {
    var s := ShowNat(n);
    var d := ((n % 10) + '0' as int) as char;
    assert d as int - '0' as int == n % 10;
    if n < 10 {
      assert s == [d] && s[..0] == [];
      assert DigitsValue(s) == DigitsValue(s[..0]) * 10 + n % 10;
    } else {
      ParseShowNat(n / 10);
      assert s == ShowNat(n / 10) + [d];
      assert s[..|s| - 1] == ShowNat(n / 10);
      assert DigitsValue(s) == DigitsValue(ShowNat(n / 10)) * 10 + n % 10;
    }
  }

  /** The position of the first '-', if any. */
  function DashIndex(s: string): (r: Option<nat>)
    ensures r.Some? ==> r.value < |s| && s[r.value] == '-' && forall j :: 0 <= j < r.value ==> s[j] != '-'
    ensures r.None? ==> forall j :: 0 <= j < |s| ==> s[j] != '-'
    decreases |s|
  {
    if s == [] then None
    else if s[0] == '-' then Some(0)
    else match DashIndex(s[1..])
      case None => None
      case Some(i) => Some(i + 1)
  }

  /**
   * `map(int, age_range.split('-'))` unpacked into two ages. It succeeds only
   * when the key is two numerals joined by exactly one '-'.
   */
  function ParseAgeBand(key: string): (r: Option<(int, int)>)
    ensures r.Some? ==>
      exists i :: (0 < i < |key| - 1 && key[i] == '-' && forall j :: 0 <= j < |key| && j != i ==> IsDigit(key[j]))
  {
    match DashIndex(key)
    case None => None
    case Some(i) =>
      var lo, hi := ParseNat(key[..i]), ParseNat(key[i + 1..]);
      if lo.Some? && hi.Some? then
        assert forall j :: 0 <= j < |key| && j != i ==> IsDigit(key[j]) by {
          forall j | 0 <= j < |key| && j != i ensures IsDigit(key[j]) {
            if j < i { assert key[..i][j] == key[j]; } else { assert key[i + 1..][j - i - 1] == key[j]; }
          }
        }
        Some((lo.value, hi.value))
      else None
  }

  /** A key written as "lo-hi" parses back to its two ages. */
  lemma ParseAgeBandRoundTrip(lo: nat, hi: nat)
    ensures ParseAgeBand(ShowNat(lo) + "-" + ShowNat(hi)) == Some((lo, hi))
  {
    var a, b := ShowNat(lo), ShowNat(hi);
    var key := a + "-" + b;
    assert key[|a|] == '-';
    assert forall j :: 0 <= j < |a| ==> key[j] == a[j];
    assert DashIndex(key) == Some(|a|);
    assert key[..|a|] == a && key[|a| + 1..] == b;
    ParseShowNat(lo);
    ParseShowNat(hi);
  }

  /** A band counts when it parses and its overlap with the target ages is a range of positive width. */
  predicate BandOverlaps(minAge: int, maxAge: int, key: string) {
    match ParseAgeBand(key)
    case None => false
    case Some((bandMin, bandMax)) => MinInt(maxAge, bandMax) > MaxInt(minAge, bandMin)
  }

  /** The summed audience share of the bands that overlap the target ages. */
  function AgeOverlap(minAge: int, maxAge: int, bands: seq<(string, real)>): real
    decreases |bands|
  {
    if bands == [] then 0.0
    else (if BandOverlaps(minAge, maxAge, bands[0].0) then bands[0].1 else 0.0) + AgeOverlap(minAge, maxAge, bands[1..])
  }

  /** Bands that do not overlap contribute nothing. */
  lemma {:induction false} AgeOverlapNone(minAge: int, maxAge: int, bands: seq<(string, real)>)
    requires forall i :: 0 <= i < |bands| ==> !BandOverlaps(minAge, maxAge, bands[i].0)
    ensures AgeOverlap(minAge, maxAge, bands) == 0.0
    decreases |bands|
  {
    if bands != [] {
      AgeOverlapNone(minAge, maxAge, bands[1..]);
    }
  }

  /** Overlap is strict: a band that only touches the target range at one age does not count. */
  lemma TouchingBandDoesNotCount()
    ensures ParseAgeBand("18-24") == Some((18, 24))
    ensures !BandOverlaps(24, 35, "18-24")
    ensures BandOverlaps(23, 35, "18-24")
  {
    SampleBandParses();
  }

  lemma SampleBandParses()
    ensures ParseAgeBand("18-24") == Some((18, 24))
  {
    ParseAgeBandRoundTrip(18, 24);
    assert ShowNat(18) == "18" && ShowNat(24) == "24";
    assert ShowNat(18) + "-" + ShowNat(24) == "18-24";
  }

  /** Half a point per percent of overlap, capped at 50, and only for a positive overlap. */
  function ShareScore(overlap: real): (r: real)
    ensures 0.0 <= r <= 50.0
    ensures r > 0.0 <==> overlap > 0.0
    ensures overlap >= 1.0 ==> r == 50.0
    ensures 0.0 < overlap <= 1.0 ==> r == overlap * 50.0
  {
    if overlap > 0.0 then Min(overlap, 1.0) * 50.0 else 0.0
  }

  lemma ShareScoreMonotone(a: real, b: real)
    requires a <= b
    ensures ShareScore(a) <= ShareScore(b)
  {
  }

  /** `calculate_audience_score`: geography and age, up to 50 each; fails when the target ages are not a pair. */
  function Audience(brief: BrandBrief, c: Creator): (r: Result<Component, UnpackError>)
    ensures r.Err? <==> |brief.targetAges| != 2
    ensures r.Err? ==> r.error == TargetAgesNotPair(|brief.targetAges|)
    ensures r.Ok? ==> 0.0 <= r.value.score <= 100.0
    ensures r.Ok? ==> var geo := GeoOverlap(brief.targetLocations, c.audienceGeo);
      (GeographicOverlap(geo) in r.value.reasons <==> geo > 0.0)
    ensures r.Ok? ==> var age := AgeOverlap(brief.targetAges[0], brief.targetAges[1], c.audienceAge);
      (TargetAgeMatch(age) in r.value.reasons <==> age > 0.0)
    ensures r.Ok? && r.value.reasons == [] ==> r.value.score == 0.0
    ensures r.Ok? ==>
      r.value.score == ShareScore(GeoOverlap(brief.targetLocations, c.audienceGeo))
        + ShareScore(AgeOverlap(brief.targetAges[0], brief.targetAges[1], c.audienceAge))
  {
    var geo := GeoOverlap(brief.targetLocations, c.audienceGeo);
    var geoReasons := if geo > 0.0 then [GeographicOverlap(geo)] else [];
    if |brief.targetAges| != 2 then Err(TargetAgesNotPair(|brief.targetAges|))
    else
      var age := AgeOverlap(brief.targetAges[0], brief.targetAges[1], c.audienceAge);
      var ageReasons := if age > 0.0 then [TargetAgeMatch(age)] else [];
      Ok(Component(ShareScore(geo) + ShareScore(age), geoReasons + ageReasons))
  }

  /* -------------------------------------------------------------- performance */

  /** Engagement: above 5% is excellent, above 3% is good. */
  function EngagementPoints(rate: real): (r: real)
    ensures r in {0.0, 30.0, 50.0}
    ensures r == 50.0 <==> rate > 0.05
    ensures r == 30.0 <==> 0.03 < rate <= 0.05
  {
    if rate > 0.05 then 50.0 else if rate > 0.03 then 30.0 else 0.0
  }

  /** Value for money: rupees per average view below 0.5, or below 1.0; no views count as infinitely expensive. */
  function ValuePoints(price: int, views: int): (r: real)
    ensures r in {0.0, 25.0, 50.0}
    ensures r == 50.0 <==> views > 0 && 2 * price < views
    ensures r == 25.0 <==> views > 0 && views <= 2 * price && price < views
  {
    if views > 0 then
      var costPerView := price as real / views as real;
      CostPerViewBounds(price, views);
      if costPerView < 0.5 then 50.0 else if costPerView < 1.0 then 25.0 else 0.0
    else 0.0
  }

  lemma CostPerViewBounds(price: int, views: int)
    requires views > 0
    ensures price as real / views as real < 0.5 <==> 2 * price < views
    ensures price as real / views as real < 1.0 <==> price < views
  {
    DivBelow(price as real, views as real, 0.5);
    DivBelow(price as real, views as real, 1.0);
  }

  /** For a positive divisor, `p / v < t` exactly when `p < t * v`. */
  lemma DivBelow(p: real, v: real, t: real)
    requires v > 0.0
    ensures p / v < t <==> p < t * v
  {
    var q := p / v;
    assert q * v == p;
    if q < t { MulStrict(q, t, v); } else { MulWeak(t, q, v); }
  }

  lemma MulStrict(a: real, b: real, c: real)
    requires a < b && c > 0.0
    ensures a * c < b * c
  {
  }

  lemma MulWeak(a: real, b: real, c: real)
    requires a <= b && c > 0.0
    ensures a * c <= b * c
  {
  }

  /** `calculate_performance_price_score`. */
  function Performance(c: Creator): (r: Component)
    ensures r.score in {0.0, 25.0, 30.0, 50.0, 55.0, 75.0, 80.0, 100.0}
    ensures HighEr(c.engagementRate) in r.reasons <==> c.engagementRate > 0.05
    ensures GoodEr(c.engagementRate) in r.reasons <==> 0.03 < c.engagementRate <= 0.05
    ensures ExcellentValue in r.reasons <==> c.avgViews > 0 && 2 * c.basePriceINR < c.avgViews
    ensures GoodValue in r.reasons <==> c.avgViews > 0 && c.avgViews <= 2 * c.basePriceINR && c.basePriceINR < c.avgViews
    ensures c.avgViews <= 0 ==> r.score in {0.0, 30.0, 50.0}
    ensures r.score == EngagementPoints(c.engagementRate) + ValuePoints(c.basePriceINR, c.avgViews)
  {
    var e := EngagementPoints(c.engagementRate);
    var v := ValuePoints(c.basePriceINR, c.avgViews);
    var erReasons :=
      if e == 50.0 then [HighEr(c.engagementRate)] else if e == 30.0 then [GoodEr(c.engagementRate)] else [];
    var valueReasons := if v == 50.0 then [ExcellentValue] else if v == 25.0 then [GoodValue] else [];
    Component(e + v, erReasons + valueReasons)
  }

  /** A higher engagement rate, or a lower price, never lowers the performance score. */
  lemma PerformanceMonotone(c: Creator, rate: real, price: int)
    requires c.engagementRate <= rate && price <= c.basePriceINR
    ensures Performance(c).score <= Performance(c.(engagementRate := rate, basePriceINR := price)).score
  {
  }

  /* -------------------------------------------------------------- constraints */

  /** Python truthiness of `brief.constraints.get(key)`: missing, `False` and `0` are false. */
  predicate Truthy(v: Option<ConstraintValue>) {
    match v
    case None => false
    case Some(Flag(b)) => b
    case Some(Count(n)) => n != 0
  }

  /** `set(brief.platforms) & set(creator.platforms)`. */
  function SharedPlatforms(brief: BrandBrief, c: Creator): (r: set<string>)
    ensures forall p :: p in r <==> p in brief.platforms && p in c.platforms
  {
    set p | p in brief.platforms && p in c.platforms
  }

  /** The brief forbids adult content and the creator is flagged adult. */
  predicate SafetyViolation(brief: BrandBrief, c: Creator) {
    Truthy(Get(brief.constraints, "noAdultContent")) && Get(c.safetyFlags, "adult") == Some(true)
  }

  /** The three hard constraints, stated independently of their order of evaluation. */
  predicate PassesConstraints(brief: BrandBrief, c: Creator) {
    && c.basePriceINR <= brief.budgetINR
    && (exists i :: 0 <= i < |brief.platforms| && brief.platforms[i] in c.platforms)
    && !SafetyViolation(brief, c)
  }

  /**
   * `check_constraints`: all or nothing. The price is checked first, then
   * the platforms, then safety; the first failure is the only reason given.
   */
  function CheckConstraints(brief: BrandBrief, c: Creator): (r: Component)
    ensures r.score == 0.0 || r.score == 100.0
    ensures r.score == 100.0 <==> PassesConstraints(brief, c)
    ensures c.basePriceINR > brief.budgetINR ==> r == Component(0.0, [PriceOverBudget])
    ensures c.basePriceINR <= brief.budgetINR && SharedPlatforms(brief, c) == {} ==>
      r == Component(0.0, [NoRequiredPlatform])
    ensures c.basePriceINR <= brief.budgetINR && SharedPlatforms(brief, c) != {} && SafetyViolation(brief, c) ==>
      r == Component(0.0, [UnsafeContent])
    ensures r.score == 100.0 ==> r.reasons == [WithinBudget, OnPlatform(SharedPlatforms(brief, c))]
    ensures r.score == 100.0 ==> SharedPlatforms(brief, c) != {}
  {
    var shared := SharedPlatforms(brief, c);
    assert shared != {} <==> exists i :: 0 <= i < |brief.platforms| && brief.platforms[i] in c.platforms by {
      if shared != {} {
        var p :| p in shared;
        var i :| 0 <= i < |brief.platforms| && brief.platforms[i] == p;
      }
      if exists i :: 0 <= i < |brief.platforms| && brief.platforms[i] in c.platforms {
        var i :| 0 <= i < |brief.platforms| && brief.platforms[i] in c.platforms;
        assert brief.platforms[i] in shared;
      }
    }
    if c.basePriceINR > brief.budgetINR then Component(0.0, [PriceOverBudget])
    else if shared == {} then Component(0.0, [NoRequiredPlatform])
    else if SafetyViolation(brief, c) then Component(0.0, [UnsafeContent])
    else Component(100.0, [WithinBudget, OnPlatform(shared)])
  }

  /** With the schema's default empty `constraints` the safety rule never fires. */
  lemma DefaultConstraintsNeverUnsafe(brief: BrandBrief, c: Creator)
    requires brief.constraints == map[]
    ensures !SafetyViolation(brief, c)
  {
  }

  /* -------------------------------------------------------------- final score */

  lemma WeightsSumToOne()
    ensures RelevanceWeight + AudienceWeight + PerformanceWeight + ConstraintsWeight == 1.0
  {
  }

  function Weighted(relevance: real, audience: real, performance: real, constraints: real): real {
    relevance * RelevanceWeight + audience * AudienceWeight
      + performance * PerformanceWeight + constraints * ConstraintsWeight
  }

  /** A weighted sum of four scores in [0, 100] is in [0, 100]; with full constraints it is at least 10. */
  lemma WeightedBounds(relevance: real, audience: real, performance: real, constraints: real)
    requires 0.0 <= relevance <= 100.0 && 0.0 <= audience <= 100.0
    requires 0.0 <= performance <= 100.0 && 0.0 <= constraints <= 100.0
    ensures 0.0 <= Weighted(relevance, audience, performance, constraints) <= 100.0
    ensures constraints == 100.0 ==> Weighted(relevance, audience, performance, constraints) >= 10.0
  {
  }

  function AsSet(rs: seq<Reason>): (r: set<Reason>)
    ensures forall x :: x in r <==> x in rs
  {
    set x | x in rs
  }

  /**
   * `calculate_final_score`. A creator failing a hard constraint scores 0 with
   * that constraint's reason alone; otherwise the weighted sum of the four
   * components, with every component's reasons. The brief's target ages are
   * unpacked only in the second case.
   */
  function FinalScore(brief: BrandBrief, c: Creator): (r: Result<MatchedCreator, UnpackError>)
    ensures r.Err? <==> PassesConstraints(brief, c) && |brief.targetAges| != 2
    ensures r.Ok? ==> r.value.creator == c
    ensures r.Ok? ==> 0.0 <= r.value.score <= 100.0
    ensures r.Ok? ==> NewMatchedCreator(c, r.value.score, r.value.reasons) == Ok(r.value)
    ensures r.Ok? ==> (r.value.score > 0.0 <==> PassesConstraints(brief, c))
    ensures r.Ok? && PassesConstraints(brief, c) ==> r.value.score >= 10.0 && WithinBudget in r.value.reasons
    ensures !PassesConstraints(brief, c) ==>
      (r.Ok? && r.value.score == 0.0 && |r.value.reasons| == 1 &&
       r.value.reasons <= {PriceOverBudget, NoRequiredPlatform, UnsafeContent} &&
       r.value.reasons == AsSet(CheckConstraints(brief, c).reasons))
    ensures r.Ok? && PassesConstraints(brief, c) ==>
      && Audience(brief, c).Ok?
      && r.value.score == Weighted(Relevance(brief, c).score, Audience(brief, c).value.score, Performance(c).score, 100.0)
      && r.value.reasons == AsSet(Relevance(brief, c).reasons + Audience(brief, c).value.reasons
                                  + Performance(c).reasons + CheckConstraints(brief, c).reasons)
  {
    var constraints := CheckConstraints(brief, c);
    if constraints.score == 0.0 then
      assert |AsSet(constraints.reasons)| == 1 by {
        assert AsSet(constraints.reasons) == {constraints.reasons[0]};
      }
      Ok(MatchedCreator(c, 0.0, AsSet(constraints.reasons)))
    else
      match Audience(brief, c)
      case Err(e) => Err(e)
      case Ok(audience) =>
        var relevance := Relevance(brief, c);
        var performance := Performance(c);
        WeightedBounds(relevance.score, audience.score, performance.score, constraints.score);
        var score := Weighted(relevance.score, audience.score, performance.score, constraints.score);
        var reasons := relevance.reasons + audience.reasons + performance.reasons + constraints.reasons;
        assert WithinBudget in reasons by {
          assert reasons[|reasons| - 2] == WithinBudget;
        }
        Ok(MatchedCreator(c, score, AsSet(reasons)))
  }

  /**
   * A creator scores exactly 100 when, and only when, it passes every
   * constraint, the brief's target ages unpack, and each of the three other
   * components is at its full 100.
   */
  lemma PerfectScore(brief: BrandBrief, c: Creator)
    ensures var r := FinalScore(brief, c);
      var a := Audience(brief, c);
      (r.Ok? && r.value.score == 100.0) <==>
        (&& PassesConstraints(brief, c)
         && a.Ok? && a.value.score == 100.0
         && Relevance(brief, c).score == 100.0
         && Performance(c).score == 100.0)
  {
    var r := FinalScore(brief, c);
    var a := Audience(brief, c);
    if PassesConstraints(brief, c) && a.Ok? {
      var rel, perf := Relevance(brief, c).score, Performance(c).score;
      assert r.value.score == Weighted(rel, a.value.score, perf, 100.0);
    }
  }
}
