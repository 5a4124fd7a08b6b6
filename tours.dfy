/**
 * The tour schema: construction-time validation, defaults and setters of a tour,
 * the `ratingsAverage` rounding setter, the slug pre-save hook and the query
 * middleware that hides secret tours.
 */
module Tours {
  import opened Wrappers
  import Queries

  type TourId = nat

  const NameMinLength := 10
  const NameMaxLength := 40
  const Difficulties: set<string> := {"easy", "medium", "difficult"}
  /** The `ratingsAverage` bounds 1 and 5, in tenths. */
  const MinAverageTenths := 10
  const MaxAverageTenths := 50
  /** The schema default of `ratingsAverage`, before the setter. */
  const DefaultRatingsAverage: real := 4.5
  /** The default of `ratingsAverage` as stored: 4.5 in tenths. */
  const DefaultAverageTenths := 45
  const DefaultRatingsQuantity := 0

  /**
   * A stored tour. `ratingsAverage` holds the stored average in tenths: the
   * value the setter produces, `Math.round(val * 10)`, before it divides by 10.
   */
  datatype Tour = Tour(
    name: string,
    slug: string,
    duration: real,
    maxGroupSize: real,
    difficulty: string,
    ratingsAverage: int,
    ratingsQuantity: int,
    price: real,
    priceDiscount: Option<real>,
    summary: string,
    description: Option<string>,
    imageCover: string,
    secretTour: Option<bool>)

  /** The fields a client supplies when it creates a tour; `None` is a missing field. */
  datatype TourInput = TourInput(
    name: Option<string>,
    duration: Option<real>,
    maxGroupSize: Option<real>,
    difficulty: Option<string>,
    ratingsAverage: Option<real>,
    ratingsQuantity: Option<int>,
    price: Option<real>,
    priceDiscount: Option<real>,
    summary: Option<string>,
    description: Option<string>,
    imageCover: Option<string>,
    secretTour: Option<bool>)

  /** The schema paths a validation error can name. */
  datatype TourPath =
    | NamePath | DurationPath | MaxGroupSizePath | DifficultyPath | RatingsAveragePath
    | PricePath | PriceDiscountPath | SummaryPath | ImageCoverPath

  const AllPaths: set<TourPath> := {
    NamePath, DurationPath, MaxGroupSizePath, DifficultyPath, RatingsAveragePath,
    PricePath, PriceDiscountPath, SummaryPath, ImageCoverPath }

  // ---------------------------------------------------------------------------
  // The `trim: true` setter (String.prototype.trim)

  /** The white space and line terminators that String.prototype.trim removes. */
  predicate IsTrimmable(c: char) {
    || c == '\t' || c == '\U{B}' || c == '\U{C}' || c == ' ' || c == '\U{A0}' || c == '\U{FEFF}'
    || c == '\U{1680}' || ('\U{2000}' <= c <= '\U{200A}') || c == '\U{202F}' || c == '\U{205F}'
    || c == '\U{3000}' || c == '\n' || c == '\r' || c == '\U{2028}' || c == '\U{2029}'
  }

  /** `s` with its leading white space removed. */
  function TrimStart(s: string): (r: string)
    ensures |r| <= |s| && r == s[|s| - |r|..]
    ensures forall k :: 0 <= k < |s| - |r| ==> IsTrimmable(s[k])
    ensures r == [] || !IsTrimmable(r[0])
  {
    if s != [] && IsTrimmable(s[0]) then TrimStart(s[1..]) else s
  }

  /** `s` with its trailing white space removed. */
  function TrimEnd(s: string): (r: string)
    ensures |r| <= |s| && r == s[..|r|]
    ensures forall k :: |r| <= k < |s| ==> IsTrimmable(s[k])
    ensures r == [] || !IsTrimmable(r[|r| - 1])
  {
    if s != [] && IsTrimmable(s[|s| - 1]) then TrimEnd(s[..|s| - 1]) else s
  }

  /** Neither end of `s` is white space. */
  predicate IsTrimmed(s: string) {
    s == [] || (!IsTrimmable(s[0]) && !IsTrimmable(s[|s| - 1]))
  }

  /** `r` is `s[a..b]`, and everything of `s` outside that slice is white space. */
  predicate SliceBetweenWhiteSpace(s: string, r: string, a: int, b: int) {
    && 0 <= a <= b <= |s| && r == s[a..b]
    && (forall k :: 0 <= k < a ==> IsTrimmable(s[k]))
    && (forall k :: b <= k < |s| ==> IsTrimmable(s[k]))
  }

  /** Cutting white space off the front of `s` and then off the back leaves a slice between white space. */
  lemma SliceOfSlice(s: string, front: string, r: string)
    requires |front| <= |s| && front == s[|s| - |front|..]
    requires forall k :: 0 <= k < |s| - |front| ==> IsTrimmable(s[k])
    requires |r| <= |front| && r == front[..|r|]
    requires forall k :: |r| <= k < |front| ==> IsTrimmable(front[k])
    ensures SliceBetweenWhiteSpace(s, r, |s| - |front|, |s| - |front| + |r|)
  {
    var a := |s| - |front|;
    forall k | a + |r| <= k < |s| ensures IsTrimmable(s[k]) {
      assert s[k] == front[k - a];
    }
  }

  /**
   * `s.trim()`: the slice of `s` between its leading and its trailing white space.
   * The result is trimmed, and a trimmed string is left as it is, so trimming twice
   * is trimming once.
   */
  function Trim(s: string): (r: string)
    ensures |r| <= |s|
    ensures IsTrimmed(r)
    ensures IsTrimmed(s) ==> r == s
  {
    var front := TrimStart(s);
    var r := TrimEnd(front);
    assert r == [] || !IsTrimmable(r[0]) by {
      if r != [] { assert r[0] == front[0]; }
    }
    r
  }

  /**
   * Trimming removes only white space, and only at the ends: `s.trim()` is a slice
   * `s[a..b]` with nothing but white space before `a` and after `b`.
   */
  lemma TrimRemovesOnlyEndWhiteSpace(s: string)
    ensures exists a, b :: SliceBetweenWhiteSpace(s, Trim(s), a, b)
  {
    var front := TrimStart(s);
    var r := TrimEnd(front);
    assert Trim(s) == r;
    SliceOfSlice(s, front, r);
    assert SliceBetweenWhiteSpace(s, Trim(s), |s| - |front|, |s| - |front| + |r|);
  }

  // ---------------------------------------------------------------------------
  // The `ratingsAverage` setter

  /**
   * `Math.round(val * 10)`, the setter's value in tenths: the integer nearest to
   * ten times `val`, a tie going up (towards positive infinity), as Math.round does.
   */
  function RoundToTenths(val: real): (tenths: int)
    ensures (tenths as real) - 0.5 <= val * 10.0 < (tenths as real) + 0.5
  {
    (val * 10.0 + 0.5).Floor
  }

  /** The setter's own example: 4.6666 is stored as 4.7. */
  lemma RoundToTenthsExample()
    ensures RoundToTenths(4.6666) == 47
    ensures RoundToTenths(DefaultRatingsAverage) == DefaultAverageTenths
  {
  }

  /** The stored average of a new tour: the given value through the setter, or the default. */
  function StoredAverage(input: TourInput): (tenths: int)
    ensures input.ratingsAverage.None? ==> tenths == DefaultAverageTenths
    ensures input.ratingsAverage.Some? ==> tenths == RoundToTenths(input.ratingsAverage.value)
  {
    match input.ratingsAverage
    case None => RoundToTenths(DefaultRatingsAverage)
    case Some(v) => RoundToTenths(v)
  }

  // ---------------------------------------------------------------------------
  // Construction-time validation

  /** Whether the validators of schema path `p` accept the (trimmed, rounded) input. */
  predicate PathOk(input: TourInput, p: TourPath) {
    match p
    case NamePath =>
      input.name.Some? && NameMinLength <= |Trim(input.name.value)| <= NameMaxLength
    case DurationPath => input.duration.Some?
    case MaxGroupSizePath => input.maxGroupSize.Some?
    case DifficultyPath => input.difficulty.Some? && input.difficulty.value in Difficulties
    case RatingsAveragePath => MinAverageTenths <= StoredAverage(input) <= MaxAverageTenths
    case PricePath => input.price.Some?
    case PriceDiscountPath =>
      // `val < this.price` runs only when a discount is given; a missing price fails it
      input.priceDiscount.None? || (input.price.Some? && input.priceDiscount.value < input.price.value)
    case SummaryPath => input.summary.Some? && Trim(input.summary.value) != ""
    case ImageCoverPath => input.imageCover.Some? && input.imageCover.value != ""
  }

  /** The paths a validation error of this input names. */
  function Violations(input: TourInput): (v: set<TourPath>)
    ensures forall p :: p in v <==> !PathOk(input, p)
  {
    set p | p in AllPaths && !PathOk(input, p)
  }

  /** The invariant every tour built by the schema satisfies. */
  predicate ValidTour(t: Tour) {
    && NameMinLength <= |t.name| <= NameMaxLength
    && IsTrimmed(t.name)
    && t.difficulty in Difficulties
    && (t.priceDiscount.Some? ==> t.priceDiscount.value < t.price)
    && MinAverageTenths <= t.ratingsAverage <= MaxAverageTenths
    && t.summary != "" && IsTrimmed(t.summary)
    && t.imageCover != ""
  }

  /** The document built from an input every validator accepts. */
  function Build(input: TourInput, slugify: string -> string): (t: Tour)
    requires forall p :: PathOk(input, p)
    ensures ValidTour(t)
  {
    assert PathOk(input, NamePath) && PathOk(input, SummaryPath) && PathOk(input, DifficultyPath);
    assert PathOk(input, PriceDiscountPath) && PathOk(input, RatingsAveragePath);
    assert PathOk(input, DurationPath) && PathOk(input, MaxGroupSizePath);
    assert PathOk(input, PricePath) && PathOk(input, ImageCoverPath);
    var name := Trim(input.name.value);
    var summary := Trim(input.summary.value);
    var t := Tour(
      name := name,
      slug := slugify(name),
      duration := input.duration.value,
      maxGroupSize := input.maxGroupSize.value,
      difficulty := input.difficulty.value,
      ratingsAverage := StoredAverage(input),
      ratingsQuantity := if input.ratingsQuantity.Some? then input.ratingsQuantity.value else DefaultRatingsQuantity,
      price := input.price.value,
      priceDiscount := input.priceDiscount,
      summary := summary,
      description := if input.description.Some? then Some(Trim(input.description.value)) else None,
      imageCover := input.imageCover.value,
      secretTour := Some(input.secretTour.Some? && input.secretTour.value));
    assert t.name == name && t.summary == summary;
    t
  }

  /**
   * Creating a tour document: setters (trim, rounding), defaults, validation and,
   * on a valid document, the pre-save hook that sets the slug. `slugify` is the
   * external slug library called with `{ lower: true }`.
   */
  function NewTour(input: TourInput, slugify: string -> string): (r: Result<Tour, set<TourPath>>)
    ensures r.Failure? <==> !(forall p :: PathOk(input, p))
    ensures r.Failure? ==> forall p :: p in r.error <==> !PathOk(input, p)
    ensures r.Success? ==> ValidTour(r.value)
    ensures r.Success? ==>
      && input.name.Some?
      && r.value.name == Trim(input.name.value)
      && r.value.slug == slugify(r.value.name)
      && r.value.ratingsAverage == StoredAverage(input)
      && r.value.ratingsQuantity == (if input.ratingsQuantity.Some? then input.ratingsQuantity.value else DefaultRatingsQuantity)
      && r.value.secretTour == Some(input.secretTour.Some? && input.secretTour.value)
    ensures r.Success? ==>
      && input.summary.Some? && r.value.summary == Trim(input.summary.value)
      && r.value.description == (if input.description.Some? then Some(Trim(input.description.value)) else None)
      && input.difficulty.Some? && r.value.difficulty == input.difficulty.value
      && input.price.Some? && r.value.price == input.price.value
      && r.value.priceDiscount == input.priceDiscount
      && input.duration.Some? && r.value.duration == input.duration.value
      && input.maxGroupSize.Some? && r.value.maxGroupSize == input.maxGroupSize.value
      && input.imageCover.Some? && r.value.imageCover == input.imageCover.value
  {
    var v := Violations(input);
    if v != {} then
      Failure(v)
    else
      assert PathOk(input, NamePath) && PathOk(input, SummaryPath) && PathOk(input, DifficultyPath);
      assert PathOk(input, PricePath) && PathOk(input, DurationPath);
      assert PathOk(input, MaxGroupSizePath) && PathOk(input, ImageCoverPath);
      Success(Build(input, slugify))
  }

  /** The rating bounds apply to the rounded value: 0.96 is stored as 1.0 and accepted, 0.94 is not. */
  lemma RatingBoundsApplyAfterRounding(input: TourInput)
    ensures input.ratingsAverage == Some(0.96) ==> PathOk(input, RatingsAveragePath)
    ensures input.ratingsAverage == Some(0.94) ==> !PathOk(input, RatingsAveragePath)
  {
  }

  // ---------------------------------------------------------------------------
  // Query middleware

  /** `{ secretTour: { $ne: true } }`: a false or missing flag passes. */
  predicate NotSecret(t: Tour) {
    t.secretTour != Some(true)
  }

  /** The `pre(/^find/)` hook: every find query is narrowed to tours that are not secret. */
  method PreFind(q: Queries.Query<Tour>)
    modifies q
    ensures q.conditions == old(q.conditions) + [NotSecret]
  {
    q.Find(NotSecret);
  }

  /**
   * A hooked find returns exactly the tours the original filter selects whose
   * `secretTour` is not true, so a tour with a false or a missing flag is returned.
   */
  lemma HookedFindHidesSecretTours(before: seq<Tour -> bool>, q: Queries.Query<Tour>, docs: seq<Tour>)
    requires q.conditions == before + [NotSecret]
    ensures forall t :: t in q.Run(docs) <==>
      t in docs && (forall i :: 0 <= i < |before| ==> before[i](t)) && t.secretTour != Some(true)
  {
    Queries.RunWithAddedCondition(before, NotSecret, q, docs);
  }
}
