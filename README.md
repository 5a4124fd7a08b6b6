# backend-pattern core in Dafny

This project models the core of a tour-booking backend built on mongoose:

- **Rating aggregation.** Each tour has a denormalised rating summary: `ratingsQuantity` and `ratingsAverage`. It is recomputed from the tour's reviews whenever a review is created, updated or deleted. A unique index allows one review per (tour, user).
- **Tour schema.** Its setters, defaults and validators, and the find filter that hides secret tours.
- **User credential lifecycle.**
  - The password-hashing and password-change pre-save hooks.
  - The stale-token check `changedPasswordAfter`.
  - Issuing a password-reset token.
  - The find filter that hides deactivated users.
- **Profile routes of the user controller.** `filterObj`, `updateMe`, `deleteMe` and `createUser`.

Modules, one per file:

| file | module | models |
|---|---|---|
| wrappers.dfy | `Wrappers` | `Option`, `Result`, `Outcome` |
| documents.dfy | `Documents` | raw key/value documents (request bodies, stored user records) and JavaScript truthiness |
| queries.dfy | `Queries` | a query under construction: the conjuncts query middleware adds with `this.find(...)`, and running it over a collection |
| tours.dfy | `Tours` | models/tourModel.js |
| reviews.dfy | `Reviews` | models/reviewModel.js |
| users.dfy | `Users` | models/userModel.js |
| user_controller.dfy | `UserController` | controllers/userController.js |

How the source's constructs are represented:

- **Collections.** The review collection is a `seq<Review>` in insertion order. The tour collection is a `map<TourId, Tour>`. Both are fields of the class `Reviews.ReviewDb`, whose methods are the review writes together with their hooks. The user collection of the controller is a `map<UserId, Document>` in `UserController.UserStore`.
- **The user document** is the class `Users.User`, whose pre-save hooks update its fields in place. Two extra fields stand for mongoose's document state: `isNew` and `isModified('password')`. The controller works on stored records instead: `Users.User.Record` gives the record of a user document, and its contract ties the record's `active` value (which the find filter reads) to the field `active`.
- **`ratingsAverage`** is kept as an integer number of tenths, the value the setter `Math.round(val * 10) / 10` produces before its division by 10. The aggregation computes its mean in integers as `(20 * total + count) / (2 * count)`. `Reviews.MeanInTenthsIsRoundedMean` proves that this equals the setter applied to the exact rational mean.
- **Ratings** are integers.
- **Tour summaries.** `Reviews.ConsistentExcept` states that every tour outside a given set shows the count and the rounded mean of its live reviews. The writes of `ReviewDb` update tours as the source does, through the secret-tour filter. So they keep every tour that is not secret consistent (`ReviewDb.InSync`), but not the secret ones (see Findings). The update as written keeps this invariant for every tour except the one the review moved to (see Findings).
- **Order of an update.** A `findOneAnd*` update runs in this order:
  1. the pre hook reads the target review;
  2. the update validators run (`runValidators`, assumed of the handler factory, see Left out) and, on failure, reject the update;
  3. a missing review leaves `this.r` null, so the post hook throws. This is modelled as the `NoSuchReview` error;
  4. the unique index rejects a duplicate (tour, user) pair;
  5. the post hook recomputes a tour.
- **`Tour.findByIdAndUpdate` in `calcAverageRatings`** runs the tour setter and the tour `pre(/^find/)` filter, but no validators. It therefore never writes a secret tour.
- **Query middleware.** `this.find(c)` in a `pre(/^find/)` hook is modelled as adding the conjunct `c` to the query's filter (see Left out for the same-path case).
- **Emails.** The `lowercase` setter is applied to a document's email and to the email an update sets, and the unique index compares the lower-cased values. `validator.isEmail` and `String.prototype.toLowerCase` are parameters.
- **`user.save()`** runs validation first, unless `validateBeforeSave` is false, then the two pre-save hooks in declaration order.
- **External functions become parameters:**
  - the clock (`now`, in milliseconds);
  - bcrypt (`bcryptHash`);
  - sha256 with hex digest (`sha256Hex`);
  - the 32 random bytes;
  - `slugify`.

Three behaviours of the code that a reader may not expect:

- **Stale-token check.** The check is in whole seconds: the token time `t` must be below `parseInt(passwordChangedAt / 1000)`. It is not a comparison of instants. So a token issued in the same second as the recorded change counts as fresh.
- **Reset token on password change.** The password-change hook does not clear a pending reset token.
- **Rating.** It is bounded but not required (see Findings).

## Model

| member | source | states |
|---|---|---|
| Queries.Query.Find | models/tourModel.js:176 | `this.find(c)` appends `c` to the query's conjuncts and changes nothing else (a conjunct abstraction of mongoose's merge, see Left out) |
| Queries.Query.Run | models/tourModel.js:176 | a query finds exactly the documents of the collection that satisfy all its conjuncts, and never more documents than the collection holds |
| Queries.RunWithAddedCondition | models/userModel.js:75 | a query narrowed by one more conjunct finds exactly the earlier results that also satisfy that conjunct |
| Tours.Trim | models/tourModel.js:12 | the `trim` setter: the result is no longer than the input, has no white space at either end, and is the input itself when that is already trimmed (so trimming is idempotent) |
| Tours.TrimRemovesOnlyEndWhiteSpace | models/tourModel.js:12 | the trimmed string is a slice `s[a..b]` of the input with nothing but white space before `a` and after `b` |
| Tours.RoundToTenths | models/tourModel.js:40 | `Math.round(val * 10)`: ten times the value lies within half a unit below or strictly less than half above the result (half rounds up) |
| Tours.RoundToTenthsExample | models/tourModel.js:40 | 4.6666 is stored as 4.7, and the default 4.5 as 4.5 |
| Tours.StoredAverage | models/tourModel.js:34-40 | a new tour without `ratingsAverage` gets the default 4.5; a given value is stored as the setter rounds it |
| Tours.PathOk | models/tourModel.js:8-72 | the validators of each schema path: name of trimmed length 10..40, the `required` fields, the difficulty enum, the rounded rating in [1, 5], a discount below the price, a non-empty trimmed summary, a non-empty cover image |
| Tours.Violations | models/tourModel.js:8-72 | a validation error names exactly the schema paths whose validators fail: name of trimmed length 10..40, `required` fields, difficulty enum, rounded rating in [1, 5], discount strictly below price, trimmed non-empty summary |
| Tours.Build | models/tourModel.js:6-83 | a document built from an input all validators accept satisfies the tour invariant `ValidTour` |
| Tours.NewTour | models/tourModel.js:6-83 | creation fails exactly when some validator fails, with exactly the failing paths; on success the tour satisfies `ValidTour`, its name, summary and (optional) description are the trimmed inputs, its slug is `slugify(name)`, its difficulty, price, optional discount, duration, group size and cover image are the given values, its average is the rounded value or 4.5, its quantity is the given value or 0, and `secretTour` defaults to false |
| Tours.RatingBoundsApplyAfterRounding | models/tourModel.js:37-40 | the [1, 5] bounds judge the rounded value: 0.96 is accepted (stored as 1.0) and 0.94 is rejected |
| Tours.NotSecret | models/tourModel.js:176 | `{ secretTour: { $ne: true } }`: a tour passes when its flag is false or missing |
| Tours.PreFind | models/tourModel.js:175-176 | the find hook adds the conjunct `secretTour != true` to every find query |
| Tours.HookedFindHidesSecretTours | models/tourModel.js:175-176 | a hooked find returns exactly the tours the original filter selects whose `secretTour` is not true; a false or missing flag is returned |
| Reviews.WellFormed | models/reviewModel.js:7-15 | the review validators: a non-empty text and, in the corrected model, a rating in 1..5 |
| Reviews.Match | models/reviewModel.js:66 | the `$match` stage never yields more reviews than the collection holds |
| Reviews.MatchMembers | models/reviewModel.js:66 | `$match: { tour }` keeps exactly the reviews of that tour, and is empty exactly when the tour has no reviews |
| Reviews.MatchConcat | models/reviewModel.js:66 | matching distributes over joining two collections |
| Reviews.RatingTotalConcat | models/reviewModel.js:76 | the sum of ratings distributes over joining two sequences |
| Reviews.MatchCountsReviewsOfTour | models/reviewModel.js:74 | `nRating` (`$sum: 1`) is the number of positions of the collection that hold a review of the tour |
| Reviews.Aggregate | models/reviewModel.js:63-79 | the pipeline yields no group exactly when the tour has no reviews, else one group with the tour id, the count and the exact mean rating |
| Reviews.RatingTotalBounds | models/reviewModel.js:11-15 | the total of ratings in 1..5 lies between the count and five times the count |
| Reviews.Summary | models/reviewModel.js:82-91 | what `calcAverageRatings` writes for a tour: (0, 4.5) without reviews, else the count and the mean rating in tenths |
| Reviews.MeanInTenths | models/reviewModel.js:76 | the integer mean in tenths is within half a tenth of the exact mean, ties rounding up |
| Reviews.MeanInTenthsIsRoundedMean | models/reviewModel.js:85 | the integer formula equals `Math.round(avg * 10)` of the exact mean `avg` |
| Reviews.SummaryWithoutReviews | models/reviewModel.js:87-91 | a tour without reviews gets (0, 4.5), and 4.5 passes the setter unchanged |
| Reviews.SummaryWithReviews | models/reviewModel.js:82-86 | a tour with reviews gets as quantity the number of its reviews and as average their mean rating rounded by the setter |
| Reviews.SummaryQuantity | models/reviewModel.js:84 | the quantity is the number of matched reviews in both branches |
| Reviews.MeanInTenthsBounds | models/reviewModel.js:13-14 | the rounded mean of ratings in 1..5 lies in [1.0, 5.0] |
| Reviews.SummaryWithinTourBounds | models/reviewModel.js:11-15 | an average computed from well-formed reviews satisfies the tour's [1, 5] bounds, although the tour update runs no validators |
| Reviews.RatingsExample | models/reviewModel.js:110-122 | ratings [4, 5, 3] give (3, 4.0); without the review rated 3 they give (2, 4.5) |
| Reviews.AcceptedAsWritten | models/reviewModel.js:11-15 | as written, a review without a rating passes the validators (no `required` on `rating`) |
| Reviews.AvgRatingAsWritten | models/reviewModel.js:76 | `$avg` is `null` exactly when none of the reviews carries a rating |
| Reviews.StoredAverageAsWritten | models/tourModel.js:40 | the setter turns a `null` average into 0 |
| Reviews.UnratedReviewsDriveAverageToZero | models/reviewModel.js:76-85 | as written, a tour whose reviews all lack a rating is given the average 0, below the tour's lower bound |
| Reviews.UnratedReviewExample | models/reviewModel.js:11-15 | the review "Nice" without a rating is accepted and yields the stored average 0 |
| Reviews.Recompute | models/reviewModel.js:82-92 | `calcAverageRatings(t)` on the collections with an unfiltered tour write (the corrected half of the secret-tour finding): tour `t` (when it exists) takes the summary of its reviews, only its two rating fields change, and no other tour changes |
| Reviews.RecomputeClearsStale | models/reviewModel.js:83-91 | recomputing `t` makes `t` consistent and leaves every other consistent tour consistent |
| Reviews.StaleOnlyWhereReviewsChanged | models/reviewModel.js:66 | a write that leaves the reviews of every other tour alone can only make the affected tours stale, besides those already stale |
| Reviews.RecomputeKeepsToursValid | models/reviewModel.js:83-86 | recomputation keeps every tour valid under `ValidTour` when all reviews are well formed |
| Reviews.NewTourShowsNoReviews | models/tourModel.js:34-45 | a tour created with the defaults already shows the summary of a tour without reviews |
| Reviews.MatchAround | models/reviewModel.js:66 | the matched reviews split at any position into before, at and after |
| Reviews.MatchAppendOther | models/reviewModel.js:99-104 | appending a review of another tour leaves a tour's matched reviews unchanged |
| Reviews.MatchRemoveOther | models/reviewModel.js:110-122 | deleting a review of another tour leaves a tour's matched reviews unchanged |
| Reviews.MatchReplaceOther | models/reviewModel.js:110-122 | replacing a review, when neither version belongs to the tour, leaves its matched reviews unchanged |
| Reviews.InsertError | models/reviewModel.js:39 | a save fails validation exactly when the review is malformed; a well-formed review is refused as a duplicate key exactly when its id or its (tour, user) pair is taken, and accepted exactly when both are fresh; an accepted insert keeps ids and (tour, user) pairs unique |
| Reviews.Patched | models/reviewModel.js:110-122 | an update never changes a review's id |
| Reviews.PatchValid | models/reviewModel.js:7-15 | with `runValidators`, only the paths an update sets are checked: a set text must be non-empty and a set rating must lie in 1..5 |
| Reviews.IndexOf | models/reviewModel.js:112 | `findOne()` by id finds the position of a review with that id, or reports that none has it |
| Reviews.UpdateKeepsValid | models/reviewModel.js:39 | an accepted update keeps ids unique, (tour, user) pairs unique and every review well formed |
| Reviews.RemoveKeepsValid | models/reviewModel.js:39 | a delete keeps ids unique, (tour, user) pairs unique and every review well formed |
| Reviews.RecomputeAsWritten | models/tourModel.js:175-176 | as written, `Tour.findByIdAndUpdate` does not match a secret tour, so a secret tour and a tour id with no document are left unchanged, and any other tour is recomputed |
| Reviews.SecretTours | models/tourModel.js:176 | the tours no hooked find matches are exactly those whose `secretTour` is true |
| Reviews.RecomputeAsWrittenClearsStale | models/reviewModel.js:83-91 | the filtered write keeps the secret flags, makes its tour consistent unless it is secret, and leaves every other tour as consistent as before |
| Reviews.RecomputeAsWrittenKeepsInSync | models/reviewModel.js:99-104 | a write that changes the reviews of one tour only, followed by the filtered recomputation of that tour, keeps every tour that is not secret consistent |
| Reviews.RemoveKeepsInSync | models/reviewModel.js:110-122 | deleting a review and recomputing its tour through the filter keeps every tour that is not secret consistent |
| Reviews.SecretTourSummaryGoesStale | models/reviewModel.js:83-86 | as written, after a review of a secret tour is saved, that tour no longer shows the summary of its reviews |
| Reviews.MovedReviewLeavesNewTourStale | models/reviewModel.js:119-122 | recomputing only the captured tour after an update that moves a review to another existing tour leaves that other tour stale |
| Reviews.MovedReviewExample | models/reviewModel.js:110-122 | moving the one review (rating 4) of tour 1 to tour 2 leaves tour 2 showing (0, 4.5) while its reviews give (1, 4.0) |
| Reviews.ReviewDb.WriteTourRatings | models/reviewModel.js:83-91 | `Tour.findByIdAndUpdate` of the two rating fields, narrowed by the tour find hook: the setter rounds the average, a missing or secret tour is left alone, reviews do not change |
| Reviews.ReviewDb.CalcAverageRatings | models/reviewModel.js:59-93 | the aggregation and the filtered tour update together perform `RecomputeAsWritten` on the stored collections |
| Reviews.ReviewDb.Create | models/reviewModel.js:99-104 | a refused save reports the validation or duplicate-key error and changes nothing; an accepted one appends the review and recomputes its tour through the filter; the unique indexes, the rating bounds and the consistency of every tour that is not secret are preserved |
| Reviews.ReviewDb.FindByIdAndUpdate | models/reviewModel.js:110-122 | errors in the source's order (validation, missing review, duplicate pair) change nothing; a successful update replaces the review and recomputes, through the filter, the tour it left and the tour it joined, preserving the indexes, the bounds and the consistency of every tour that is not secret |
| Reviews.ReviewDb.FindByIdAndUpdateAsWritten | models/reviewModel.js:110-122 | the same update with only the pre-update tour recomputed: every tour that is not secret stays consistent except possibly the tour the review moved to; an update that keeps the review's tour keeps every tour that is not secret consistent |
| Reviews.ReviewDb.FindByIdAndDelete | models/reviewModel.js:110-122 | a missing review is an error that changes nothing; otherwise the review is removed, returned, and its tour recomputed without it through the filter, preserving the indexes, the bounds and the consistency of every tour that is not secret |
| Users.HexEncode | models/userModel.js:104 | `toString('hex')` yields two lower-case hex digits per byte |
| Users.HexDecode | models/userModel.js:104 | decoding a hex string yields half as many bytes as it has digits |
| Users.HexRoundTrip | models/userModel.js:104 | decoding the hex encoding of any bytes gives the bytes back |
| Users.HexEncodeInjective | models/userModel.js:104 | different random bytes give different reset tokens |
| Users.WholeSeconds | models/userModel.js:90-93 | `parseInt(ms / 1000, 10)` is the quotient truncated towards zero, for negative as well as positive times |
| Users.ChangedPasswordAfter | models/userModel.js:88-101 | false when `passwordChangedAt` is absent; otherwise true exactly when the token second `t` is strictly below the whole second of the change, that is `(t + 1) * 1000 <= ms` for `ms >= 0` and `t * 1000 < ms` for `ms < 0` |
| Users.TokenFromSaveSecondIsFresh | models/userModel.js:68 | with the change recorded as `now - 1000`, a token issued in the second of `now` or later is never reported stale |
| Users.BackdatedChangeWindow | models/userModel.js:68 | for `now >= 1000`, a token is stale exactly when it was issued two whole seconds or more before `now` |
| Users.ActiveNotFalse | models/userModel.js:75 | `{ active: { $ne: false } }`: a record passes when `active` is missing or anything but false |
| Users.PreFind | models/userModel.js:73-77 | the find hook adds the conjunct `active != false` to every find query |
| Users.HookedFindHidesInactiveUsers | models/userModel.js:73-77 | a hooked find returns exactly the users the original filter selects whose `active` is not false |
| Users.Projected | models/userModel.js:28 | a query result omits the `select: false` paths `password` and `active` and keeps every other path with its value |
| Users.User.constructor | models/userModel.js:6-49 | a new user has the given paths with the email lower-cased by the `lowercase` setter, role "user" by default, `active` true, no change or reset fields, is new, and its password counts as modified when given |
| Users.User.AssignPassword | models/userModel.js:55 | assigning the password and its confirmation marks the password modified and changes nothing else |
| Users.User.PathOk | models/userModel.js:7-40 | the validators of each path: a required name, a required email that `isEmail` accepts, the role enum, a required password of at least 8 characters, a required confirmation equal to the (unhashed) password |
| Users.User.Violations | models/userModel.js:6-40 | validation names exactly the failing paths: required name, required email accepted by `isEmail`, the role enum, a required password of at least 8 characters, and a required confirmation equal to the (unhashed) password |
| Users.User.Record | models/userModel.js:6-49 | the stored record of a user document: `active` holds the field's value, so the find filter passes it exactly when the user is active; email and role are stored as in the document; the password is present exactly when set, and no query shows it |
| Users.User.Save | models/userModel.js:53-70 | a validation failure (the validators of `PathOk`, `isEmail` included) changes nothing. Otherwise a modified password becomes `bcryptHash(password, 12)` and `passwordConfirm` is cleared. `passwordChangedAt` becomes `now - 1000` only when the password was modified and the document is not new. An unmodified password leaves the password, the confirmation and the change time as they were. Nothing else changes |
| Users.User.CreatePasswordResetToken | models/userModel.js:103-118 | returns the 64-digit hex of the random bytes, stores its sha256 digest in place of any earlier one, sets the expiry to `now + 18000000` ms, and changes nothing else |
| UserController.Whitelisted | controllers/userController.js:6-14 | the whitelist keeps exactly the keys that are both allowed and present, each with its original value |
| UserController.WhitelistIdempotent | controllers/userController.js:9-10 | filtering a filtered object again with the same whitelist changes nothing |
| UserController.FilterObj | controllers/userController.js:6-14 | the key-by-key loop computes exactly the whitelist |
| UserController.CarriesPassword | controllers/userController.js:23 | the body's `password` or its `passwordConfirm` is truthy in JavaScript's sense |
| UserController.CastUpdate | controllers/userController.js:37-40 | for string values, the query casts the update: a string `email` is lower-cased by the `lowercase` setter, and every other path and value is kept; casting of other values is not modelled |
| UserController.SetPathOk | models/userModel.js:7-16 | for string values, the validators of a path an update sets: `required` on `name` and `email`, and `isEmail` on a string `email`; casting of other values is not modelled |
| UserController.UpdateViolations | controllers/userController.js:37-40 | the update validators reject exactly the set paths whose value is null or empty, and an email string that `isEmail` rejects |
| UserController.ProfileUpdateTouchesOnlyProfileFields | controllers/userController.js:34 | merging the filtered and cast body changes at most `name` and `email`; role, active, password and every other path keep their presence and value |
| UserController.SoftDeletedUserIsHidden | controllers/userController.js:51 | a record whose `active` was set to false is returned by no hooked find |
| UserController.CreateUser | controllers/userController.js:59-64 | always status 500 with status "error" and no user |
| UserController.UserStore.EmailTaken | models/userModel.js:14 | the unique index on `email`: another record already holds the email the update sets |
| UserController.UserStore.UpdateMe | controllers/userController.js:21-48 | a truthy `password` or `passwordConfirm` is refused with 400 and nothing changes. Otherwise the whitelisted body is cast (email lower-cased) and, in order: a name or email the validators reject (empty, null, or not an email) is refused; an invisible user yields 200 with no user; an email held by another user is refused; else only the cast whitelisted fields are merged into the record, and the reply is 200 with the record as queries show it |
| UserController.UserStore.DeleteMe | controllers/userController.js:50-57 | replies 204; the record stays in the collection with `active` false, so afterwards the user is not visible |

## Left out

- server.js, the Express routes, utils/catchAsync.js and utils/email.js: process lifecycle, routing, promise plumbing and SMTP are I/O.
- The error middleware, the generic handler factory (`getAllUsers`, `getUser`, `updateUser`, `deleteUser`) and the auth controller are not part of this model. In particular, the model does not say how a refused `updateMe` or a validation error becomes an HTTP response, or how reset tokens are consumed. Review updates reach `findByIdAndUpdate` through `reviewController.updateReview` (routes/reviewRoutes.js:30); the review controller and the handler factory are not part of this model, so the options of that query are not visible here: the order of an update above, step 2, and `Reviews.PatchValid` assume that it passes `runValidators: true`, as `updateMe` does (controllers/userController.js:37-40).
- `getMe` only copies the signed-in user's id into the route parameters. It is routing.
- `correctPassword` is a single bcrypt comparison. bcrypt, sha256, the random bytes and `slugify` are abstract parameters, so no entropy or constant-time property is claimed.
- Mongoose machinery: `populate`, the index declarations other than the unique review index and the unique keys (`name` of tours is not checked), query timing (`this.start` and the post-find log), GeoJSON fields, and `createdAt`. `createdAt`'s `Date.now()` default is evaluated once, when the schema is loaded.
- `durationWeeks` is a floating-point virtual.
- Concurrency. The post-save hook's recomputation is not awaited, and simultaneous review writes may interleave. Here every write and its hook happen in one step.
- Floating point. Ratings are integers, means and the setter are exact rationals, and `NaN`, `-0` and JavaScript number precision are not represented.
- Reviews.WellFormed: requires a rating. As written, the schema also accepts a missing rating, which this part of the model does not cover (see Findings). Fractional ratings are not modelled.
- UserController.UserStore.UpdateMe: a `name` or `email` value in the body that is not a string is stored as given. Mongoose's casting of it to String, and the cast error for an object, are not modelled.
- UserController.UpdateViolations: `isEmail` is applied only to string values, because casting is not modelled.
- Users.User.constructor: the `photo` path, a plain string without validators, is not modelled. Values are strings already, so casting does not arise.
- Tours.Trim: its own contract does not say that the result is a slice of the input between white space. `Tours.TrimRemovesOnlyEndWhiteSpace` proves that for every input; keeping it out of the contract keeps the proofs that use `Trim` small.
- Queries.Query.Find: modelled as adding a conjunct to the filter. Mongoose merges the hook's condition into the filter path by path, so a caller's own condition on the same path is replaced rather than combined. For example, `{ secretTour: true }` becomes `{ secretTour: { $ne: true } }`. The model does not capture this replacement.
- Tours.HookedFindHidesSecretTours: "exactly" holds for filters that do not test `secretTour` themselves. For a filter that does, mongoose's same-path replacement drops the caller's condition (see `Queries.Query.Find`). That no secret tour is returned holds either way.
- Users.HookedFindHidesInactiveUsers: "exactly" holds for filters that do not test `active` themselves. For a filter that does, mongoose's same-path replacement drops the caller's condition (see `Queries.Query.Find`). That no deactivated user is returned holds either way.
- Users.User.Violations: runs every validator on every save. Mongoose's choice of which paths to validate on an existing document is not modelled.
- String lengths are counted in Unicode characters, not in JavaScript UTF-16 code units.
- UserController.CastUpdate: casts only a string `email`; mongoose also casts a non-string `name` or `email` (a number, say) to a String before validation, and that casting is not modelled, so such a value reaches `UpdateViolations` uncast.
- UserController.SetPathOk: states the validators for string values only; a non-string `name` or `email` that mongoose would cast to a String first is judged here uncast.
- The tour pre-save slug hook is part of `Tours.NewTour`. Recomputing the slug when a stored tour is saved again is not modelled.
- Users.BackdatedChangeWindow: stated only for `now >= 1000`. `Users.TokenFromSaveSecondIsFresh` covers all times.

## Findings

| source | as written | input that shows it | evidently intended | confidence | as-written member | corrected member |
|---|---|---|---|---|---|---|
| models/reviewModel.js:119-122 | after `findByIdAndUpdate`, only the tour of the review read before the update (`this.r.tour`) is recomputed | tour 1 has one review rated 4 and tour 2 has none; an update moves the review to tour 2. Tour 2 keeps (0, 4.5) although its reviews give (1, 4.0). This is `Reviews.MovedReviewExample`; `Reviews.MovedReviewLeavesNewTourStale` proves it for every such move | recompute both the tour the review left and the tour it joined | medium, not executed | Reviews.ReviewDb.FindByIdAndUpdateAsWritten | Reviews.ReviewDb.FindByIdAndUpdate |
| models/reviewModel.js:83-86 | `calcAverageRatings` writes through `Tour.findByIdAndUpdate`, which runs the tour `pre(/^find/)` hook (models/tourModel.js:175-176) and so never matches a secret tour | a tour with `secretTour: true` receives its first review; its summary stays (0, 4.5). `Reviews.SecretTourSummaryGoesStale` proves this for any saved review of a secret tour. The writes of `Reviews.ReviewDb` perform this filtered write, so their invariant `InSync` covers only the tours that are not secret | the summary of every tour, secret or not, follows its reviews | medium, not executed | Reviews.RecomputeAsWritten | Reviews.Recompute |
| models/reviewModel.js:11-15 | `rating` has `min` and `max` but is not required, so a review without a rating passes validation; `$avg` of no ratings is `null`, which the setter stores as 0 | the only review of a tour is "Nice" with no rating: the tour's average becomes 0, below its lower bound 1 (`Reviews.UnratedReviewExample`, `Reviews.UnratedReviewsDriveAverageToZero`) | every review carries a rating in 1..5, so every average lies in [1, 5] | medium, not executed | Reviews.AcceptedAsWritten | Reviews.SummaryWithinTourBounds |
