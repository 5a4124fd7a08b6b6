/**
 * Reviews and the denormalised rating summary of their tour: the `$match`/`$group`
 * aggregation, `calcAverageRatings`, the unique (tour, user) index, and the save
 * and `findOneAnd*` hooks that decide which tour to recompute.
 */
module Reviews {
  import opened Wrappers
  import Tours

  type TourId = Tours.TourId
  type ReviewId = nat
  type UserId = nat

  const RatingMin := 1
  const RatingMax := 5
  /** The average `calcAverageRatings` writes for a tour without reviews, before the setter. */
  const NoReviewsAverage: real := 4.5

  /** A stored review: its text, its rating and the ids of its tour and of its author. */
  datatype Review = Review(id: ReviewId, review: string, rating: int, tour: TourId, user: UserId)

  /** The schema validators of a review: the text is required, the rating lies in 1..5. */
  predicate WellFormed(r: Review) {
    r.review != "" && RatingMin <= r.rating <= RatingMax
  }

  datatype WriteError =
    | ValidationError   // a schema validator rejected the document or the update
    | DuplicateKey      // the unique index on `_id` or on (tour, user) rejected the write
    | NoSuchReview      // `this.r` is null, so the post hook throws

  ghost predicate UniqueIds(rs: seq<Review>) {
    forall i, j :: 0 <= i < j < |rs| ==> rs[i].id != rs[j].id
  }

  /** The unique index `{ tour: 1, user: 1 }`: one review per user per tour. */
  ghost predicate UniquePairs(rs: seq<Review>) {
    forall i, j :: 0 <= i < j < |rs| ==> rs[i].tour != rs[j].tour || rs[i].user != rs[j].user
  }

  // ---------------------------------------------------------------------------
  // The aggregation pipeline

  /** The `$match: { tour: tourId }` stage: the reviews of tour `t`, in collection order. */
  function Match(rs: seq<Review>, t: TourId): (ms: seq<Review>)
    ensures |ms| <= |rs|
  {
    if rs == [] then []
    else
      var init, last := rs[..|rs| - 1], rs[|rs| - 1];
      assert rs == init + [last];
      Match(init, t) + (if last.tour == t then [last] else [])
  }

  /** The `$match` stage keeps exactly the reviews of `t`. */
  lemma {:induction false} MatchMembers(rs: seq<Review>, t: TourId)
    ensures forall r :: r in Match(rs, t) <==> r in rs && r.tour == t
    ensures Match(rs, t) == [] <==> forall r :: r in rs ==> r.tour != t
  {
    if rs != [] {
      var init := rs[..|rs| - 1];
      MatchMembers(init, t);
      assert rs == init + [rs[|rs| - 1]];
    }
    if Match(rs, t) != [] {
      assert Match(rs, t)[0] in Match(rs, t);
    }
  }

  lemma MatchSingleton(x: Review, t: TourId)
    ensures Match([x], t) == if x.tour == t then [x] else []
  {
    assert [x][..0] == [];
  }

  /** `$sum` of the ratings of some reviews. */
  function RatingTotal(ms: seq<Review>): int {
    if ms == [] then 0 else RatingTotal(ms[..|ms| - 1]) + ms[|ms| - 1].rating
  }

  /** One group of the `$group` stage: `_id`, `nRating` (`$sum: 1`) and `avgRating` (`$avg`). */
  datatype Group = Group(id: TourId, nRating: nat, avgRating: real)

  /** The result of the pipeline: no group when the tour has no reviews, else one. */
  function Aggregate(rs: seq<Review>, t: TourId): (stats: seq<Group>)
    ensures |stats| <= 1
    ensures stats == [] <==> forall r :: r in rs ==> r.tour != t
    ensures stats != [] ==>
      var ms := Match(rs, t);
      ms != [] && stats[0] == Group(t, |ms|, (RatingTotal(ms) as real) / (|ms| as real))
  {
    var ms := Match(rs, t);
    MatchMembers(rs, t);
    if ms == [] then []
    else
      [Group(t, |ms|, (RatingTotal(ms) as real) / (|ms| as real))]
  }

  lemma {:induction false} MatchConcat(a: seq<Review>, b: seq<Review>, t: TourId)
    ensures Match(a + b, t) == Match(a, t) + Match(b, t)
  {
    if b == [] {
      assert a + b == a;
    } else {
      var init := b[..|b| - 1];
      assert (a + b)[..|a + b| - 1] == a + init;
      assert (a + b)[|a + b| - 1] == b[|b| - 1];
      MatchConcat(a, init, t);
    }
  }

  lemma {:induction false} RatingTotalConcat(a: seq<Review>, b: seq<Review>)
    ensures RatingTotal(a + b) == RatingTotal(a) + RatingTotal(b)
  {
    if b == [] {
      assert a + b == a;
    } else {
      var init := b[..|b| - 1];
      assert (a + b)[..|a + b| - 1] == a + init;
      assert (a + b)[|a + b| - 1] == b[|b| - 1];
      RatingTotalConcat(a, init);
    }
  }

  /** The `$match` stage counts exactly the positions of the collection that hold a review of `t`. */
  lemma {:induction false} MatchCountsReviewsOfTour(rs: seq<Review>, t: TourId)
    ensures |Match(rs, t)| == |set i | 0 <= i < |rs| && rs[i].tour == t|
  {
    if rs != [] {
      var n := |rs| - 1;
      var init := rs[..n];
      MatchCountsReviewsOfTour(init, t);
      var before := set i | 0 <= i < n && init[i].tour == t;
      var after := set i | 0 <= i < |rs| && rs[i].tour == t;
      if rs[n].tour == t {
        assert after == before + {n};
        assert n !in before;
      } else {
        assert after == before;
      }
    }
  }

  /** Every rating of a well-formed review lies in 1..5, so their total lies between |ms| and 5|ms|. */
  lemma {:induction false} RatingTotalBounds(ms: seq<Review>)
    requires forall r :: r in ms ==> WellFormed(r)
    ensures RatingMin * |ms| <= RatingTotal(ms) <= RatingMax * |ms|
  {
    if ms != [] {
      var init := ms[..|ms| - 1];
      assert ms[|ms| - 1] in ms;
      assert forall r :: r in init ==> r in ms;
      RatingTotalBounds(init);
    }
  }

  // ---------------------------------------------------------------------------
  // The summary a tour should show

  /** A tour's `ratingsQuantity` and `ratingsAverage` (in tenths). */
  datatype RatingSummary = RatingSummary(quantity: nat, averageTenths: int)

  /** The summary written for a tour without reviews: 0 reviews, average 4.5. */
  const NoReviews := RatingSummary(0, Tours.DefaultAverageTenths)

  /**
   * The mean `total / count` in tenths, rounded half up: ten times the mean lies
   * within half a unit of the result, and a tie rounds up.
   */
  function MeanInTenths(total: int, count: nat): (tenths: int)
    requires count > 0
    ensures count * (2 * tenths - 1) <= 20 * total < count * (2 * tenths + 1)
  {
    var d := 2 * count;
    var q := (20 * total + count) / d;
    var m := (20 * total + count) % d;
    assert 20 * total + count == d * q + m && 0 <= m < d;
    assert count * (2 * q - 1) == d * q - count;
    assert count * (2 * q + 1) == d * q + count;
    q
  }

  /** The $match/$group summary of tour `t`, the average rounded to tenths. */
  function Summary(rs: seq<Review>, t: TourId): RatingSummary {
    var ms := Match(rs, t);
    if ms == [] then NoReviews else RatingSummary(|ms|, MeanInTenths(RatingTotal(ms), |ms|))
  }

  /** The floor of a real quotient is the integer quotient. */
  lemma FloorOfQuotient(a: int, d: int)
    requires d > 0
    ensures ((a as real) / (d as real)).Floor == a / d
  {
    var q, m := a / d, a % d;
    assert a == d * q + m && 0 <= m < d;
    assert (d * q) as real == (d as real) * (q as real);
    var f := (m as real) / (d as real);
    assert 0.0 <= f < 1.0;
    assert (a as real) / (d as real) == (q as real) + f;
  }

  lemma CancelFactor(a: real, b: real, d: real)
    requires d != 0.0 && a * d == b * d
    ensures a == b
  {
  }

  /**
   * The integer formula agrees with what the source stores: `Math.round(avg * 10) / 10`
   * of the exact mean `avg = total / count` is `MeanInTenths(total, count)` tenths.
   */
  lemma MeanInTenthsIsRoundedMean(total: int, count: nat)
    requires count > 0
    ensures MeanInTenths(total, count) == Tours.RoundToTenths((total as real) / (count as real))
  {
    var c, t := count as real, total as real;
    var x := t / c;
    var y := (20.0 * t + c) / (2.0 * c);
    assert x * c == t;
    assert y * (2.0 * c) == 20.0 * t + c;
    assert (x * 10.0 + 0.5) * (2.0 * c) == 20.0 * (x * c) + c;
    CancelFactor(x * 10.0 + 0.5, y, 2.0 * c);
    FloorOfQuotient(20 * total + count, 2 * count);
  }

  /** Without reviews of `t` the summary is the default (0, 4.5); 4.5 passes the setter unchanged. */
  lemma SummaryWithoutReviews(rs: seq<Review>, t: TourId)
    requires forall r :: r in rs ==> r.tour != t
    ensures Summary(rs, t) == RatingSummary(0, 45)
    ensures Tours.RoundToTenths(NoReviewsAverage) == Summary(rs, t).averageTenths
  {
    MatchMembers(rs, t);
  }

  /**
   * With reviews of `t`, the quantity is the number of reviews of `t` and the
   * average is their mean rating as the setter stores it.
   */
  lemma SummaryWithReviews(rs: seq<Review>, t: TourId)
    requires exists r :: r in rs && r.tour == t
    ensures Match(rs, t) != []
    ensures Summary(rs, t).quantity == |set i | 0 <= i < |rs| && rs[i].tour == t|
    ensures Summary(rs, t).averageTenths
         == Tours.RoundToTenths((RatingTotal(Match(rs, t)) as real) / (|Match(rs, t)| as real))
  {
    var r :| r in rs && r.tour == t;
    MatchMembers(rs, t);
    assert r in Match(rs, t);
    MatchCountsReviewsOfTour(rs, t);
    MeanInTenthsIsRoundedMean(RatingTotal(Match(rs, t)), |Match(rs, t)|);
  }

  /** The quantity shown is always the number of reviews of `t`. */
  lemma SummaryQuantity(rs: seq<Review>, t: TourId)
    ensures Summary(rs, t).quantity == |Match(rs, t)|
  {
  }

  lemma MulMonotone(c: nat, a: int, b: int)
    requires a <= b
    ensures c * a <= c * b
  {
    assert c * b - c * a == c * (b - a);
  }

  /** A mean of ratings in 1..5 is, in tenths, within 10..50. */
  lemma MeanInTenthsBounds(total: int, count: nat)
    requires count > 0 && count <= total <= 5 * count
    ensures Tours.MinAverageTenths <= MeanInTenths(total, count) <= Tours.MaxAverageTenths
  {
    var q := MeanInTenths(total, count);
    if q > 50 {
      MulMonotone(count, 101, 2 * q - 1);
    }
    if q < 10 {
      MulMonotone(count, 2 * q + 1, 19);
    }
  }

  /**
   * The averages the aggregation writes satisfy the tour schema's bounds [1, 5],
   * although `findByIdAndUpdate` runs no validators.
   */
  lemma SummaryWithinTourBounds(rs: seq<Review>, t: TourId)
    requires forall r :: r in rs ==> WellFormed(r)
    ensures Tours.MinAverageTenths <= Summary(rs, t).averageTenths <= Tours.MaxAverageTenths
  {
    var ms := Match(rs, t);
    if ms != [] {
      MatchMembers(rs, t);
      RatingTotalBounds(ms);
      MeanInTenthsBounds(RatingTotal(ms), |ms|);
    }
  }

  /** The worked example: ratings [4, 5, 3] give (3, 4.0); deleting the review rated 3 gives (2, 4.5). */
  lemma RatingsExample()
    ensures var a, b, c := Review(1, "a", 4, 7, 1), Review(2, "b", 5, 7, 2), Review(3, "c", 3, 7, 3);
            Summary([a, b, c], 7) == RatingSummary(3, 40) && Summary([a, b], 7) == RatingSummary(2, 45)
  {
    var a, b, c := Review(1, "a", 4, 7, 1), Review(2, "b", 5, 7, 2), Review(3, "c", 3, 7, 3);
    assert [a] + [b] == [a, b] && [a, b] + [c] == [a, b, c];
    MatchSingleton(a, 7);
    MatchSingleton(b, 7);
    MatchSingleton(c, 7);
    MatchConcat([a], [b], 7);
    MatchConcat([a, b], [c], 7);
    assert [a][..0] == [] && [b][..0] == [] && [c][..0] == [];
    RatingTotalConcat([a], [b]);
    RatingTotalConcat([a, b], [c]);
    assert MeanInTenths(12, 3) == 40 && MeanInTenths(9, 2) == 45;
  }

  // ---------------------------------------------------------------------------
  // The rating as the schema declares it: bounded but not required

  /** An incoming review as the schema accepts it: `rating` has `min` and `max` but no `required`. */
  datatype ReviewDraft = ReviewDraft(review: string, rating: Option<int>, tour: TourId, user: UserId)

  /** The validators as written: a missing rating passes. */
  predicate AcceptedAsWritten(d: ReviewDraft) {
    d.review != "" && (d.rating.Some? ==> RatingMin <= d.rating.value <= RatingMax)
  }

  /** The number of drafts that carry a rating. */
  function RatedCount(ds: seq<ReviewDraft>): (n: nat)
    ensures n <= |ds|
  {
    if ds == [] then 0 else RatedCount(ds[..|ds| - 1]) + (if ds[|ds| - 1].rating.Some? then 1 else 0)
  }

  function RatedTotal(ds: seq<ReviewDraft>): int {
    if ds == [] then 0
    else RatedTotal(ds[..|ds| - 1]) + (if ds[|ds| - 1].rating.Some? then ds[|ds| - 1].rating.value else 0)
  }

  /** `$avg: '$rating'`: the mean of the ratings present, `null` when there is none. */
  function AvgRatingAsWritten(ds: seq<ReviewDraft>): (avg: Option<real>)
    ensures avg.None? <==> RatedCount(ds) == 0
  {
    var n := RatedCount(ds);
    if n == 0 then None else Some((RatedTotal(ds) as real) / (n as real))
  }

  /** The setter applied to `avgRating`: `Math.round(null * 10) / 10` is 0. */
  function StoredAverageAsWritten(avg: Option<real>): (tenths: int)
    ensures avg.None? ==> tenths == 0
    ensures avg.Some? ==> tenths == Tours.RoundToTenths(avg.value)
  {
    Tours.RoundToTenths(if avg.Some? then avg.value else 0.0)
  }

  lemma {:induction false} NoRatingsNoCount(ds: seq<ReviewDraft>)
    requires forall d :: d in ds ==> d.rating.None?
    ensures RatedCount(ds) == 0
  {
    if ds != [] {
      assert ds[|ds| - 1] in ds;
      assert forall d :: d in ds[..|ds| - 1] ==> d in ds;
      NoRatingsNoCount(ds[..|ds| - 1]);
    }
  }

  /**
   * As written, reviews without a rating are accepted, and a tour none of whose
   * reviews carries a rating is given the average 0, outside the tour's [1, 5].
   */
  lemma UnratedReviewsDriveAverageToZero(ds: seq<ReviewDraft>)
    requires ds != [] && forall d :: d in ds ==> AcceptedAsWritten(d) && d.rating.None?
    ensures StoredAverageAsWritten(AvgRatingAsWritten(ds)) == 0 < Tours.MinAverageTenths
  {
    NoRatingsNoCount(ds);
  }

  /** A concrete instance: the single review "Nice" without a rating. */
  lemma UnratedReviewExample()
    ensures AcceptedAsWritten(ReviewDraft("Nice", None, 1, 1))
    ensures StoredAverageAsWritten(AvgRatingAsWritten([ReviewDraft("Nice", None, 1, 1)])) == 0
  {
    UnratedReviewsDriveAverageToZero([ReviewDraft("Nice", None, 1, 1)]);
  }

  // ---------------------------------------------------------------------------
  // Writing the summary to the tour

  /** Whether a tour shows the given summary. */
  predicate Shows(tour: Tours.Tour, s: RatingSummary) {
    tour.ratingsQuantity == s.quantity && tour.ratingsAverage == s.averageTenths
  }

  /** Every tour outside `stale` shows the summary of its reviews. */
  ghost predicate ConsistentExcept(tours: map<TourId, Tours.Tour>, rs: seq<Review>, stale: set<TourId>) {
    forall t :: t in tours && t !in stale ==> Shows(tours[t], Summary(rs, t))
  }

  /** Every tour shows the count and the rounded mean of its live reviews. */
  ghost predicate Consistent(tours: map<TourId, Tours.Tour>, rs: seq<Review>) {
    ConsistentExcept(tours, rs, {})
  }

  /**
   * `calcAverageRatings(t)` as a function of the two collections, with a tour write
   * that no find filter narrows: tour `t`, when it exists, takes the summary of its
   * reviews, and no other tour changes.
   */
  function Recompute(tours: map<TourId, Tours.Tour>, rs: seq<Review>, t: TourId): (tours': map<TourId, Tours.Tour>)
    ensures tours'.Keys == tours.Keys
    ensures forall u :: u in tours && u != t ==> tours'[u] == tours[u]
    ensures t in tours ==>
      Shows(tours'[t], Summary(rs, t))
      && tours'[t] == tours[t].(ratingsQuantity := tours'[t].ratingsQuantity, ratingsAverage := tours'[t].ratingsAverage)
  {
    if t in tours then
      var s := Summary(rs, t);
      tours[t := tours[t].(ratingsQuantity := s.quantity, ratingsAverage := s.averageTenths)]
    else tours
  }

  /** Recomputing `t` leaves every tour but `t` as consistent as before, and makes `t` consistent. */
  lemma RecomputeClearsStale(tours: map<TourId, Tours.Tour>, rs: seq<Review>, t: TourId, stale: set<TourId>)
    requires ConsistentExcept(tours, rs, stale)
    ensures ConsistentExcept(Recompute(tours, rs, t), rs, stale - {t})
  {
  }

  /** A change that leaves the reviews of every tour outside `affected` alone can make only those tours stale, beyond the already stale ones. */
  lemma StaleOnlyWhereReviewsChanged(tours: map<TourId, Tours.Tour>, rs: seq<Review>, rs': seq<Review>, stale: set<TourId>, affected: set<TourId>)
    requires ConsistentExcept(tours, rs, stale)
    requires forall u :: u !in affected ==> Match(rs', u) == Match(rs, u)
    ensures ConsistentExcept(tours, rs', stale + affected)
  {
  }

  /** Recomputation keeps the tour schema's invariant: the written averages lie in [1, 5]. */
  lemma RecomputeKeepsToursValid(tours: map<TourId, Tours.Tour>, rs: seq<Review>, t: TourId)
    requires forall u :: u in tours ==> Tours.ValidTour(tours[u])
    requires forall r :: r in rs ==> WellFormed(r)
    ensures forall u :: u in Recompute(tours, rs, t) ==> Tours.ValidTour(Recompute(tours, rs, t)[u])
  {
    SummaryWithinTourBounds(rs, t);
  }

  /** A tour created with the schema defaults already shows the summary of a tour without reviews. */
  lemma NewTourShowsNoReviews(input: Tours.TourInput, slugify: string -> string, rs: seq<Review>, t: TourId)
    requires Tours.NewTour(input, slugify).Success?
    requires input.ratingsAverage.None? && input.ratingsQuantity.None?
    requires forall r :: r in rs ==> r.tour != t
    ensures Shows(Tours.NewTour(input, slugify).value, Summary(rs, t))
  {
    SummaryWithoutReviews(rs, t);
  }

  // Effects of single writes on the reviews of the other tours

  lemma MatchAppendOther(rs: seq<Review>, r: Review, u: TourId)
    requires r.tour != u
    ensures Match(rs + [r], u) == Match(rs, u)
  {
    assert (rs + [r])[..|rs|] == rs;
  }

  /** The reviews of `u` before position `i`, at `i` and after it. */
  lemma MatchAround(rs: seq<Review>, i: nat, u: TourId)
    requires i < |rs|
    ensures Match(rs, u) == Match(rs[..i], u) + Match([rs[i]], u) + Match(rs[i + 1..], u)
  {
    assert rs == rs[..i] + [rs[i]] + rs[i + 1..];
    MatchConcat(rs[..i] + [rs[i]], rs[i + 1..], u);
    MatchConcat(rs[..i], [rs[i]], u);
  }

  lemma MatchRemoveOther(rs: seq<Review>, i: nat, u: TourId)
    requires i < |rs| && rs[i].tour != u
    ensures Match(rs[..i] + rs[i + 1..], u) == Match(rs, u)
  {
    MatchAround(rs, i, u);
    MatchConcat(rs[..i], rs[i + 1..], u);
    MatchSingleton(rs[i], u);
  }

  lemma MatchReplaceOther(rs: seq<Review>, i: nat, x: Review, u: TourId)
    requires i < |rs| && rs[i].tour != u && x.tour != u
    ensures Match(rs[i := x], u) == Match(rs, u)
  {
    MatchAround(rs, i, u);
    MatchAround(rs[i := x], i, u);
    assert rs[i := x][..i] == rs[..i] && rs[i := x][i + 1..] == rs[i + 1..];
    MatchSingleton(rs[i], u);
    MatchSingleton(x, u);
  }

  // ---------------------------------------------------------------------------
  // Writes to the review collection

  /** The error a `save` of the new review `r` reports, if any: validation first, then the unique indexes. */
  function InsertError(rs: seq<Review>, r: Review): (e: Option<WriteError>)
    ensures e == Some(ValidationError) <==> !WellFormed(r)
    ensures e == Some(DuplicateKey) <==>
      WellFormed(r) && exists q :: q in rs && (q.id == r.id || (q.tour == r.tour && q.user == r.user))
    ensures e.None? <==>
      WellFormed(r) && forall q :: q in rs ==> q.id != r.id && (q.tour != r.tour || q.user != r.user)
    ensures e.None? && UniqueIds(rs) && UniquePairs(rs) ==> UniqueIds(rs + [r]) && UniquePairs(rs + [r])
  {
    if !WellFormed(r) then Some(ValidationError)
    else if exists q :: q in rs && (q.id == r.id || (q.tour == r.tour && q.user == r.user)) then Some(DuplicateKey)
    else
      assert forall i :: 0 <= i < |rs| ==> rs[i] in rs;
      None
  }

  /** The fields an update may set; `None` leaves a field as it is. */
  datatype ReviewPatch = ReviewPatch(review: Option<string>, rating: Option<int>, tour: Option<TourId>, user: Option<UserId>)

  function Patched(r: Review, p: ReviewPatch): (r': Review)
    ensures r'.id == r.id
  {
    Review(
      r.id,
      if p.review.Some? then p.review.value else r.review,
      if p.rating.Some? then p.rating.value else r.rating,
      if p.tour.Some? then p.tour.value else r.tour,
      if p.user.Some? then p.user.value else r.user)
  }

  /** The update validators (`runValidators`) check only the paths the update sets. */
  predicate PatchValid(p: ReviewPatch) {
    (p.review.Some? ==> p.review.value != "") && (p.rating.Some? ==> RatingMin <= p.rating.value <= RatingMax)
  }

  /** `findOne({ _id: id })`: the position of the review with this id. */
  function IndexOf(rs: seq<Review>, id: ReviewId): (k: Option<nat>)
    ensures k.Some? ==> k.value < |rs| && rs[k.value].id == id
    ensures k.None? ==> forall r :: r in rs ==> r.id != id
  {
    if rs == [] then None
    else if rs[0].id == id then Some(0)
    else
      var k := IndexOf(rs[1..], id);
      if k.Some? then Some(k.value + 1) else None
  }

  /** Whether a review other than the one at `i` already holds this (tour, user) pair. */
  predicate PairTakenByOther(rs: seq<Review>, i: nat, x: Review) {
    exists j :: 0 <= j < |rs| && j != i && rs[j].tour == x.tour && rs[j].user == x.user
  }

  lemma UpdateKeepsValid(rs: seq<Review>, i: nat, x: Review)
    requires i < |rs| && UniqueIds(rs) && UniquePairs(rs) && forall r :: r in rs ==> WellFormed(r)
    requires x.id == rs[i].id && !PairTakenByOther(rs, i, x) && WellFormed(x)
    ensures UniqueIds(rs[i := x]) && UniquePairs(rs[i := x]) && forall r :: r in rs[i := x] ==> WellFormed(r)
  {
    forall r | r in rs[i := x] ensures WellFormed(r) {
      var k :| 0 <= k < |rs| && rs[i := x][k] == r;
      if k != i {
        assert rs[k] in rs;
      }
    }
  }

  lemma PatchKeepsWellFormed(r: Review, p: ReviewPatch)
    requires WellFormed(r) && PatchValid(p)
    ensures WellFormed(Patched(r, p))
  {
  }

  lemma RemoveKeepsValid(rs: seq<Review>, i: nat)
    requires i < |rs| && UniqueIds(rs) && UniquePairs(rs) && forall r :: r in rs ==> WellFormed(r)
    ensures var rs' := rs[..i] + rs[i + 1..];
            UniqueIds(rs') && UniquePairs(rs') && forall r :: r in rs' ==> WellFormed(r)
  {
    var rs' := rs[..i] + rs[i + 1..];
    assert forall a :: 0 <= a < |rs'| ==> rs'[a] == rs[if a < i then a else a + 1];
    forall r | r in rs' ensures WellFormed(r) {
      var k :| 0 <= k < |rs'| && rs'[k] == r;
      assert rs[if k < i then k else k + 1] in rs;
    }
  }

  /** The secret-tour filter in force: as written, Tour.findByIdAndUpdate matches only tours that are not secret. */
  function RecomputeAsWritten(tours: map<TourId, Tours.Tour>, rs: seq<Review>, t: TourId): (tours': map<TourId, Tours.Tour>)
    ensures t in tours && !Tours.NotSecret(tours[t]) ==> tours' == tours
    ensures t in tours && Tours.NotSecret(tours[t]) ==> tours' == Recompute(tours, rs, t)
    ensures t !in tours ==> tours' == tours
  {
    if t in tours && Tours.NotSecret(tours[t]) then Recompute(tours, rs, t) else tours
  }

  /**
   * A write that changes the reviews of one tour only, followed by the filtered
   * recomputation of that tour, keeps every tour that is not secret in step.
   */
  lemma RecomputeAsWrittenKeepsInSync(tours: map<TourId, Tours.Tour>, rs: seq<Review>, rs': seq<Review>, t: TourId)
    requires ConsistentExcept(tours, rs, SecretTours(tours))
    requires forall u :: u != t ==> Match(rs', u) == Match(rs, u)
    ensures var tours' := RecomputeAsWritten(tours, rs', t);
            ConsistentExcept(tours', rs', SecretTours(tours'))
  {
    forall u | u !in {t} ensures Match(rs', u) == Match(rs, u) {
    }
    StaleOnlyWhereReviewsChanged(tours, rs, rs', SecretTours(tours), {t});
    assert SecretTours(tours) + {t} == {t} + SecretTours(tours);
    RecomputeAsWrittenClearsStale(tours, rs', t, {t});
    assert ({t} - {t}) + SecretTours(tours) == SecretTours(tours);
  }

  /** Deleting the review at `i` and recomputing its tour through the filter keeps the tours in step. */
  lemma RemoveKeepsInSync(tours: map<TourId, Tours.Tour>, rs: seq<Review>, i: nat, tours': map<TourId, Tours.Tour>, rs': seq<Review>)
    requires i < |rs| && ConsistentExcept(tours, rs, SecretTours(tours))
    requires rs' == rs[..i] + rs[i + 1..] && tours' == RecomputeAsWritten(tours, rs', rs[i].tour)
    ensures ConsistentExcept(tours', rs', SecretTours(tours'))
  {
    forall u | u != rs[i].tour ensures Match(rs', u) == Match(rs, u) {
      MatchRemoveOther(rs, i, u);
    }
    RecomputeAsWrittenKeepsInSync(tours, rs, rs', rs[i].tour);
  }

  /** The tours that no hooked find matches: those whose `secretTour` is true. */
  function SecretTours(tours: map<TourId, Tours.Tour>): (secret: set<TourId>)
    ensures forall t :: t in secret <==> t in tours && !Tours.NotSecret(tours[t])
  {
    set t | t in tours && !Tours.NotSecret(tours[t])
  }

  /**
   * The filtered write keeps the secret flags, makes `t` consistent unless it is
   * secret, and leaves every other tour as consistent as before: every tour outside
   * `stale` and outside the secret ones stays or becomes consistent.
   */
  lemma RecomputeAsWrittenClearsStale(tours: map<TourId, Tours.Tour>, rs: seq<Review>, t: TourId, stale: set<TourId>)
    requires ConsistentExcept(tours, rs, stale + SecretTours(tours))
    ensures SecretTours(RecomputeAsWritten(tours, rs, t)) == SecretTours(tours)
    ensures ConsistentExcept(RecomputeAsWritten(tours, rs, t), rs, (stale - {t}) + SecretTours(tours))
  {
    var tours' := RecomputeAsWritten(tours, rs, t);
    if t in tours && Tours.NotSecret(tours[t]) {
      RecomputeClearsStale(tours, rs, t, stale + SecretTours(tours));
      assert (stale + SecretTours(tours)) - {t} == (stale - {t}) + SecretTours(tours);
    }
    assert forall u :: u in tours ==> tours'[u].secretTour == tours[u].secretTour;
  }

  /**
   * As written, the summary of a secret tour is never rewritten: after a new review
   * of a secret tour is saved, that tour no longer shows the summary of its reviews.
   */
  lemma SecretTourSummaryGoesStale(tours: map<TourId, Tours.Tour>, rs: seq<Review>, r: Review)
    requires Consistent(tours, rs)
    requires r.tour in tours && !Tours.NotSecret(tours[r.tour])
    ensures !Consistent(RecomputeAsWritten(tours, rs + [r], r.tour), rs + [r])
  {
    assert (rs + [r])[..|rs|] == rs;
    assert Match(rs + [r], r.tour) == Match(rs, r.tour) + [r];
    SummaryQuantity(rs, r.tour);
    SummaryQuantity(rs + [r], r.tour);
  }

  /**
   * As written, an update that moves a review to another tour recomputes only the
   * tour captured before the update: the tour the review moved to goes stale.
   */
  lemma MovedReviewLeavesNewTourStale(tours: map<TourId, Tours.Tour>, rs: seq<Review>, i: nat, p: ReviewPatch)
    requires Consistent(tours, rs)
    requires i < |rs| && p.tour.Some? && p.tour.value != rs[i].tour && p.tour.value in tours
    ensures var rs' := rs[i := Patched(rs[i], p)];
            !Consistent(Recompute(tours, rs', rs[i].tour), rs')
  {
    var x, t := Patched(rs[i], p), p.tour.value;
    var rs' := rs[i := x];
    MatchAround(rs, i, t);
    MatchAround(rs', i, t);
    assert rs'[..i] == rs[..i] && rs'[i + 1..] == rs[i + 1..];
    MatchSingleton(rs[i], t);
    MatchSingleton(x, t);
    SummaryQuantity(rs, t);
    SummaryQuantity(rs', t);
    assert !Shows(Recompute(tours, rs', rs[i].tour)[t], Summary(rs', t));
  }

  /** A concrete instance: one review of tour 1 rated 4 is moved to tour 2. */
  lemma MovedReviewExample()
    ensures var tour1 := Tours.Tour("The Forest Hiker", "the-forest-hiker", 5.0, 25.0, "easy", 40, 1, 397.0, None, "Breathtaking hike", None, "a.jpg", Some(false));
            var tour2 := Tours.Tour("The Sea Explorer", "the-sea-explorer", 7.0, 15.0, "medium", 45, 0, 497.0, None, "Exploring the sea", None, "b.jpg", Some(false));
            var tours := map[1 := tour1, 2 := tour2];
            var rs := [Review(1, "Great", 4, 1, 9)];
            var p := ReviewPatch(None, None, Some(2), None);
            Consistent(tours, rs)
            && Shows(Recompute(tours, rs[0 := Patched(rs[0], p)], 1)[2], RatingSummary(0, 45))
            && Summary(rs[0 := Patched(rs[0], p)], 2) == RatingSummary(1, 40)
  {
    var rs := [Review(1, "Great", 4, 1, 9)];
    var rs' := [Review(1, "Great", 4, 2, 9)];
    assert rs[..0] == [] && rs'[..0] == [];
    assert Match(rs, 1) == rs && Match(rs', 2) == rs';
    assert forall u :: u != 1 ==> Match(rs, u) == [];
  }

  // ---------------------------------------------------------------------------
  // The collections and the hooks

  class ReviewDb {
    /** The review collection, in insertion order. */
    var reviews: seq<Review>
    /** The tour collection, by id. */
    var tours: map<TourId, Tours.Tour>

    /** The schema validators and the unique indexes hold of the stored reviews. */
    ghost predicate Valid()
      reads this
    {
      UniqueIds(reviews) && UniquePairs(reviews) && forall r :: r in reviews ==> WellFormed(r)
    }

    /** Every tour that a find can see, that is every tour that is not secret, shows the summary of its live reviews. */
    ghost predicate InSync()
      reads this
    {
      ConsistentExcept(tours, reviews, SecretTours(tours))
    }

    constructor (initialTours: map<TourId, Tours.Tour>)
      ensures Valid() && reviews == [] && tours == initialTours
    {
      reviews := [];
      tours := initialTours;
    }

    /**
     * `Tour.findByIdAndUpdate(t, { ratingsQuantity, ratingsAverage })`. It runs as a
     * `findOneAndUpdate` query, so the tour `pre(/^find/)` hook narrows it to tours
     * that are not secret: a missing or a secret tour is left alone. The setter
     * rounds the average; no validator runs.
     */
    method WriteTourRatings(t: TourId, quantity: nat, average: real)
      modifies this
      ensures reviews == old(reviews)
      ensures tours == if t in old(tours) && Tours.NotSecret(old(tours)[t])
                       then old(tours)[t := old(tours)[t].(ratingsQuantity := quantity, ratingsAverage := Tours.RoundToTenths(average))]
                       else old(tours)
    {
      if t in tours && Tours.NotSecret(tours[t]) {
        tours := tours[t := tours[t].(ratingsQuantity := quantity, ratingsAverage := Tours.RoundToTenths(average))];
      }
    }

    /**
     * `Review.calcAverageRatings(t)`: aggregate the reviews of `t` and write the
     * summary to `t` through the filtered tour update.
     */
    method CalcAverageRatings(t: TourId)
      modifies this
      ensures reviews == old(reviews)
      ensures tours == RecomputeAsWritten(old(tours), reviews, t)
    {
      var stats := Aggregate(reviews, t);
      if |stats| > 0 {
        var ms := Match(reviews, t);
        MeanInTenthsIsRoundedMean(RatingTotal(ms), |ms|);
        WriteTourRatings(t, stats[0].nRating, stats[0].avgRating);
      } else {
        SummaryWithoutReviews(reviews, t);
        WriteTourRatings(t, 0, NoReviewsAverage);
      }
    }

    /** `Review.create(r)`: validate, insert under the unique indexes, then the post('save') hook. */
    method Create(r: Review) returns (res: Result<Review, WriteError>)
      requires Valid()
      modifies this
      ensures Valid()
      ensures InsertError(old(reviews), r).Some? ==>
        res == Failure(InsertError(old(reviews), r).value) && reviews == old(reviews) && tours == old(tours)
      ensures InsertError(old(reviews), r).None? ==>
        res == Success(r) && reviews == old(reviews) + [r] && tours == RecomputeAsWritten(old(tours), reviews, r.tour)
      ensures old(InSync()) ==> InSync()
    {
      var e := InsertError(reviews, r);
      if e.Some? {
        return Failure(e.value);
      }
      ghost var tours0, rs0 := tours, reviews;
      reviews := reviews + [r];
      // post('save'): this.constructor.calcAverageRatings(this.tour)
      CalcAverageRatings(r.tour);
      if ConsistentExcept(tours0, rs0, SecretTours(tours0)) {
        forall u | u != r.tour ensures Match(reviews, u) == Match(rs0, u) {
          MatchAppendOther(rs0, r, u);
        }
        RecomputeAsWrittenKeepsInSync(tours0, rs0, reviews, r.tour);
      }
      res := Success(r);
    }

    /**
     * `Review.findByIdAndUpdate(id, p)` with the post hook as it should be: the tour
     * captured by the pre hook and the tour of the updated review are both
     * recomputed, each through the filtered tour update.
     */
    method FindByIdAndUpdate(id: ReviewId, p: ReviewPatch) returns (res: Result<Review, WriteError>)
      requires Valid()
      modifies this
      ensures Valid()
      ensures !PatchValid(p) ==> res == Failure(ValidationError) && reviews == old(reviews) && tours == old(tours)
      ensures PatchValid(p) && IndexOf(old(reviews), id).None? ==>
        res == Failure(NoSuchReview) && reviews == old(reviews) && tours == old(tours)
      ensures PatchValid(p) && IndexOf(old(reviews), id).Some? ==>
        var i := IndexOf(old(reviews), id).value;
        var x := Patched(old(reviews)[i], p);
        if PairTakenByOther(old(reviews), i, x)
        then res == Failure(DuplicateKey) && reviews == old(reviews) && tours == old(tours)
        else res == Success(x) && reviews == old(reviews)[i := x]
             && tours == RecomputeAsWritten(RecomputeAsWritten(old(tours), reviews, old(reviews)[i].tour), reviews, x.tour)
      ensures old(InSync()) ==> InSync()
    {
      // pre(/^findOneAnd/): this.r = await this.findOne()
      var k := IndexOf(reviews, id);
      if !PatchValid(p) {
        return Failure(ValidationError);
      }
      if k.None? {
        return Failure(NoSuchReview);
      }
      var i := k.value;
      var captured := reviews[i];
      var x := Patched(captured, p);
      if PairTakenByOther(reviews, i, x) {
        return Failure(DuplicateKey);
      }
      ghost var tours0, rs0 := tours, reviews;
      assert captured in reviews;
      PatchKeepsWellFormed(captured, p);
      UpdateKeepsValid(reviews, i, x);
      reviews := reviews[i := x];
      // post(/^findOneAnd/): recompute the captured tour, then the tour the review now belongs to
      CalcAverageRatings(captured.tour);
      ghost var mid := tours;
      CalcAverageRatings(x.tour);
      if ConsistentExcept(tours0, rs0, SecretTours(tours0)) {
        var moved := {captured.tour, x.tour};
        forall u | u !in moved ensures Match(reviews, u) == Match(rs0, u) {
          MatchReplaceOther(rs0, i, x, u);
        }
        StaleOnlyWhereReviewsChanged(tours0, rs0, reviews, SecretTours(tours0), moved);
        assert SecretTours(tours0) + moved == moved + SecretTours(tours0);
        RecomputeAsWrittenClearsStale(tours0, reviews, captured.tour, moved);
        RecomputeAsWrittenClearsStale(mid, reviews, x.tour, moved - {captured.tour});
        assert (moved - {captured.tour} - {x.tour}) + SecretTours(tours0) == SecretTours(tours);
      }
      res := Success(x);
    }

    /**
     * `Review.findByIdAndUpdate(id, p)` with the hooks as the source writes them:
     * only the tour captured before the update is recomputed, so the tour the
     * review moved to can be left stale.
     */
    method FindByIdAndUpdateAsWritten(id: ReviewId, p: ReviewPatch) returns (res: Result<Review, WriteError>)
      requires Valid()
      modifies this
      ensures Valid()
      ensures !PatchValid(p) ==> res == Failure(ValidationError) && reviews == old(reviews) && tours == old(tours)
      ensures PatchValid(p) && IndexOf(old(reviews), id).None? ==>
        res == Failure(NoSuchReview) && reviews == old(reviews) && tours == old(tours)
      ensures PatchValid(p) && IndexOf(old(reviews), id).Some? ==>
        var i := IndexOf(old(reviews), id).value;
        var x := Patched(old(reviews)[i], p);
        if PairTakenByOther(old(reviews), i, x)
        then res == Failure(DuplicateKey) && reviews == old(reviews) && tours == old(tours)
        else res == Success(x) && reviews == old(reviews)[i := x]
             && tours == RecomputeAsWritten(old(tours), reviews, old(reviews)[i].tour)
             && (old(InSync()) ==> ConsistentExcept(tours, reviews, SecretTours(tours) + {x.tour}))
             && (old(InSync()) && x.tour == old(reviews)[i].tour ==> InSync())
      ensures res.Failure? ==> (old(InSync()) ==> InSync())
    {
      var k := IndexOf(reviews, id);
      if !PatchValid(p) {
        return Failure(ValidationError);
      }
      if k.None? {
        return Failure(NoSuchReview);
      }
      var i := k.value;
      var captured := reviews[i];
      var x := Patched(captured, p);
      if PairTakenByOther(reviews, i, x) {
        return Failure(DuplicateKey);
      }
      ghost var tours0, rs0 := tours, reviews;
      assert captured in reviews;
      PatchKeepsWellFormed(captured, p);
      UpdateKeepsValid(reviews, i, x);
      reviews := reviews[i := x];
      CalcAverageRatings(captured.tour);
      if ConsistentExcept(tours0, rs0, SecretTours(tours0)) {
        var moved := {captured.tour, x.tour};
        forall u | u !in moved ensures Match(reviews, u) == Match(rs0, u) {
          MatchReplaceOther(rs0, i, x, u);
        }
        StaleOnlyWhereReviewsChanged(tours0, rs0, reviews, SecretTours(tours0), moved);
        assert SecretTours(tours0) + moved == moved + SecretTours(tours0);
        RecomputeAsWrittenClearsStale(tours0, reviews, captured.tour, moved);
        assert (moved - {captured.tour}) + SecretTours(tours0) <= SecretTours(tours) + {x.tour};
        if x.tour == captured.tour {
          assert (moved - {captured.tour}) + SecretTours(tours0) == SecretTours(tours);
        }
      }
      res := Success(x);
    }

    /** `Review.findByIdAndDelete(id)`: capture the review, delete it, recompute its tour. */
    method FindByIdAndDelete(id: ReviewId) returns (res: Result<Review, WriteError>)
      requires Valid()
      modifies this
      ensures Valid()
      ensures IndexOf(old(reviews), id).None? ==>
        res == Failure(NoSuchReview) && reviews == old(reviews) && tours == old(tours)
      ensures IndexOf(old(reviews), id).Some? ==>
        var i := IndexOf(old(reviews), id).value;
        res == Success(old(reviews)[i]) && reviews == old(reviews)[..i] + old(reviews)[i + 1..]
        && tours == RecomputeAsWritten(old(tours), reviews, old(reviews)[i].tour)
      ensures old(InSync()) ==> InSync()
    {
      // pre(/^findOneAnd/): this.r = await this.findOne()
      var k := IndexOf(reviews, id);
      if k.None? {
        return Failure(NoSuchReview);
      }
      var i := k.value;
      var captured := reviews[i];
      ghost var tours0, rs0 := tours, reviews;
      RemoveKeepsValid(reviews, i);
      reviews := reviews[..i] + reviews[i + 1..];
      // post(/^findOneAnd/): calcAverageRatings(this.r.tour)
      CalcAverageRatings(captured.tour);
      if ConsistentExcept(tours0, rs0, SecretTours(tours0)) {
        RemoveKeepsInSync(tours0, rs0, i, tours, reviews);
      }
      res := Success(captured);
    }
  }
}
