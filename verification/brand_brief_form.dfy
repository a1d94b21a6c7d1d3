/**
 * The campaign brief form (frontend/components/dashboard/brand-brief-form.tsx):
 * the zod schema `formSchema` and the checkbox handler that adds an option id
 * to, or removes it from, a multi-select list.
 */
module BrandBriefForm {
  import opened Wrappers

  datatype BriefField = Name | Category | Budget | Locations | AgeRange | Goals | Tone | Platforms

  datatype BriefValues = BriefValues(
    name: string,
    category: string,
    budget: real,
    locations: seq<string>,
    ageRange: seq<int>,
    goals: seq<string>,
    tone: seq<string>,
    platforms: seq<string>)

  /** The smallest budget the schema admits, in rupees. */
  const MinBudget: real := 10000.0

  predicate Valid(v: BriefValues) {
    && |v.name| >= 5
    && |v.category| >= 1
    && v.budget >= MinBudget
    && |v.locations| > 0
    && |v.ageRange| == 2
    && |v.goals| > 0
    && |v.tone| > 0
    && |v.platforms| > 0
  }

  /** The check zod applies to one field of the schema. */
  predicate FieldOk(v: BriefValues, f: BriefField) {
    match f
    case Name => |v.name| >= 5
    case Category => |v.category| >= 1
    case Budget => v.budget >= MinBudget
    case Locations => |v.locations| > 0
    case AgeRange => 2 <= |v.ageRange| <= 2
    case Goals => |v.goals| > 0
    case Tone => |v.tone| > 0
    case Platforms => |v.platforms| > 0
  }

  const AllFields: set<BriefField> := {Name, Category, Budget, Locations, AgeRange, Goals, Tone, Platforms}

  function FieldErrors(v: BriefValues): set<BriefField> {
    set f | f in AllFields && !FieldOk(v, f)
  }

  /** The schema passes exactly when no field fails its check. */
  lemma NoErrorsIffValid(v: BriefValues)
    ensures FieldErrors(v) == {} <==> Valid(v)
  {
    if FieldErrors(v) == {} {
      forall f | f in AllFields ensures FieldOk(v, f) {
        assert f !in FieldErrors(v);
      }
    } else {
      var f :| f in FieldErrors(v);
    }
  }

  /** `formSchema` parsing: the values pass unchanged, or every failing field is reported. */
  function Validate(v: BriefValues): (r: Result<BriefValues, set<BriefField>>)
    ensures r.Ok? <==> Valid(v)
    ensures r.Ok? ==> r.value == v
    ensures r.Err? ==> r.error != {}
    ensures r.Err? ==> (Name in r.error <==> |v.name| < 5)
    ensures r.Err? ==> (Category in r.error <==> v.category == "")
    ensures r.Err? ==> (Budget in r.error <==> v.budget < MinBudget)
    ensures r.Err? ==> (Locations in r.error <==> v.locations == [])
    ensures r.Err? ==> (AgeRange in r.error <==> |v.ageRange| != 2)
    ensures r.Err? ==> (Goals in r.error <==> v.goals == [])
    ensures r.Err? ==> (Tone in r.error <==> v.tone == [])
    ensures r.Err? ==> (Platforms in r.error <==> v.platforms == [])
  {
    var errors := FieldErrors(v);
    NoErrorsIffValid(v);
    if errors == {} then Ok(v) else Err(errors)
  }

  /** The form's initial values. */
  const Defaults: BriefValues := BriefValues("", "", 250000.0, [], [18, 35], [], [], [])

  /** The untouched form fails on the name, the category and the four lists, and on nothing else. */
  lemma DefaultsRejected()
    ensures Validate(Defaults).Err?
    ensures Validate(Defaults).error == {Name, Category, Locations, Goals, Tone, Platforms}
  {
  }

  /** `xs` can be obtained from `ys` by deleting elements. */
  predicate IsSubsequence<T(==)>(xs: seq<T>, ys: seq<T>)
    decreases |ys|
  {
    if xs == [] then true
    else if ys == [] then false
    else if xs[0] == ys[0] then IsSubsequence(xs[1..], ys[1..])
    else IsSubsequence(xs, ys[1..])
  }

  /** `list.filter(value => value !== id)`. */
  function Without(list: seq<string>, id: string): (r: seq<string>)
    ensures id !in r
    ensures IsSubsequence(r, list)
    ensures forall x :: x != id ==> multiset(r)[x] == multiset(list)[x]
    decreases |list|
  {
    if list == [] then []
    else
      var rest := Without(list[1..], id);
      assert list == [list[0]] + list[1..];
      if list[0] == id then rest else [list[0]] + rest
  }

  /**
   * The checkbox handler: checking an option appends its id at the end,
   * unchecking it removes every occurrence of the id and keeps the rest in order.
   */
  function Toggle(list: seq<string>, id: string, checked: bool): (r: seq<string>)
    ensures checked ==> r == list + [id]
    ensures !checked ==> id !in r && IsSubsequence(r, list)
    ensures !checked ==> forall x :: x != id ==> multiset(r)[x] == multiset(list)[x]
  {
    if checked then list + [id] else Without(list, id)
  }

  /** Removing an id that is not there changes nothing. */
  lemma {:induction false} WithoutAbsent(list: seq<string>, id: string)
    requires id !in list
    ensures Without(list, id) == list
    decreases |list|
  {
    if list != [] {
      WithoutAbsent(list[1..], id);
    }
  }

  lemma {:induction false} WithoutAppend(list: seq<string>, x: string, id: string)
    ensures Without(list + [x], id) == Without(list, id) + (if x == id then [] else [x])
    decreases |list|
  {
    if list == [] {
      assert [x][1..] == [];
    } else {
      assert (list + [x])[1..] == list[1..] + [x];
      WithoutAppend(list[1..], x, id);
    }
  }

  /** Checking then unchecking an option that was not selected restores the list. */
  lemma CheckThenUncheck(list: seq<string>, id: string)
    requires id !in list
    ensures Toggle(Toggle(list, id, true), id, false) == list
  {
    WithoutAppend(list, id, id);
    WithoutAbsent(list, id);
  }

  /** Unchecking twice is unchecking once. */
  lemma UncheckIdempotent(list: seq<string>, id: string)
    ensures Toggle(Toggle(list, id, false), id, false) == Toggle(list, id, false)
  {
    WithoutAbsent(Without(list, id), id);
  }
}
