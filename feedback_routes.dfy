/**
 * The feedback routes of Backend/routes/ProductRoutes.js: `POST /feedback`
 * and `GET /feedbacks/:productId`. The token check (`jwt.verify`), the
 * ObjectId constructor and validity check, and store failures are
 * parameters; the feedback collection is a sequence of records.
 */
module FeedbackRoutes {
  import opened Wrappers
  import opened Http
  import opened Seqs
  import opened Sorting

  /** A stored feedback document; `createdAt` is its creation timestamp. */
  datatype FeedbackRecord = FeedbackRecord(userId: string, productId: string, feedback: JsValue, rate: JsValue, createdAt: int)

  /** The JSON body of `POST /feedback`. */
  datatype FeedbackBody = FeedbackBody(productId: JsValue, feedback: JsValue, rate: JsValue)

  const FailedToAdd: string := "Failed to add feedback on product."

  /**
   * `POST /feedback`. `token` is the `x-auth-token` header; `verify` gives
   * `jwt.verify(token, secret).userid`, or None when it throws; `toObjectId`
   * is `new mongoose.Types.ObjectId(v)`, None when it throws; `saveFails` is
   * a failing save; `now` is the creation time the store records. Returns
   * the reply and the new feedback collection.
   */
  function PostFeedback(
    store: seq<FeedbackRecord>, token: Option<string>, verify: string -> Option<JsValue>,
    body: FeedbackBody, toObjectId: JsValue -> Option<string>, saveFails: bool, now: int
  ): (r: (Reply<()>, seq<FeedbackRecord>))
    ensures r.0.status in {200, 400, 401}
    ensures r.0.status != 200 ==> r.1 == store
  {
    if token.None? || token.value == "" then (Text(401, "Access Denied. No token provided."), store)
    else
      match verify(token.value)
      case None => (Text(400, FailedToAdd), store)
      case Some(userid) =>
        if !Truthy(body.productId) || !Truthy(body.feedback) || !Truthy(body.rate) then
          (Text(400, "Missing required fields: productId, feedback, or rate."), store)
        else
          match (toObjectId(userid), toObjectId(body.productId))
          case (Some(u), Some(p)) =>
            if saveFails then (Text(400, FailedToAdd), store)
            else (Text(200, "Feedback on product added successfully."), store + [FeedbackRecord(u, p, body.feedback, body.rate, now)])
          case _ => (Text(400, FailedToAdd), store)
  }

  /** A missing or empty token is the only way to get 401. */
  lemma UnauthorizedExactlyWithoutToken(
    store: seq<FeedbackRecord>, token: Option<string>, verify: string -> Option<JsValue>,
    body: FeedbackBody, toObjectId: JsValue -> Option<string>, saveFails: bool, now: int)
    ensures PostFeedback(store, token, verify, body, toObjectId, saveFails, now).0.status == 401 <==>
      token.None? || token.value == ""
  {
  }

  /** A token that fails verification lands in the catch block: 400, not 401. */
  lemma BadTokenIsBadRequest(
    store: seq<FeedbackRecord>, token: string, verify: string -> Option<JsValue>,
    body: FeedbackBody, toObjectId: JsValue -> Option<string>, saveFails: bool, now: int)
    requires token != "" && verify(token).None?
    ensures PostFeedback(store, Some(token), verify, body, toObjectId, saveFails, now) == (Text(400, FailedToAdd), store)
  {
  }

  /** A verified token with any falsy field gets 400; a rate of 0 is falsy and so is rejected. */
  lemma FalsyFieldRejected(
    store: seq<FeedbackRecord>, token: string, verify: string -> Option<JsValue>,
    body: FeedbackBody, toObjectId: JsValue -> Option<string>, saveFails: bool, now: int)
    requires token != "" && verify(token).Some?
    requires !Truthy(body.productId) || !Truthy(body.feedback) || !Truthy(body.rate)
    ensures PostFeedback(store, Some(token), verify, body, toObjectId, saveFails, now) ==
      (Text(400, "Missing required fields: productId, feedback, or rate."), store)
    ensures !Truthy(Num(0))
  {
  }

  /** With a verified token, a `rate` of 0 is taken as missing: 400, nothing stored. */
  lemma RateZeroRejected(
    store: seq<FeedbackRecord>, token: string, verify: string -> Option<JsValue>,
    body: FeedbackBody, toObjectId: JsValue -> Option<string>, saveFails: bool, now: int)
    requires token != "" && verify(token).Some?
    requires body.rate == Num(0)
    ensures PostFeedback(store, Some(token), verify, body, toObjectId, saveFails, now) ==
      (Text(400, "Missing required fields: productId, feedback, or rate."), store)
  {
  }

  /**
   * The request succeeds exactly when the token verifies, the three fields
   * are truthy, both ids cast and the save works; then the new feedback is
   * appended with the body's fields. Whether a product with that id exists
   * plays no part.
   */
  lemma PostSucceedsExactly(
    store: seq<FeedbackRecord>, token: Option<string>, verify: string -> Option<JsValue>,
    body: FeedbackBody, toObjectId: JsValue -> Option<string>, saveFails: bool, now: int)
    ensures PostFeedback(store, token, verify, body, toObjectId, saveFails, now).0.status == 200 <==>
      && token.Some? && token.value != ""
      && verify(token.value).Some?
      && Truthy(body.productId) && Truthy(body.feedback) && Truthy(body.rate)
      && toObjectId(verify(token.value).value).Some? && toObjectId(body.productId).Some?
      && !saveFails
    ensures PostFeedback(store, token, verify, body, toObjectId, saveFails, now).0.status == 200 ==>
      PostFeedback(store, token, verify, body, toObjectId, saveFails, now).1 ==
        store + [FeedbackRecord(toObjectId(verify(token.value).value).value, toObjectId(body.productId).value, body.feedback, body.rate, now)]
  {
  }

  /** The submitting user as `populate('userId', 'name')` gives it; null when the user is gone. */
  datatype UserRef = UserRef(id: string, name: string)

  datatype FeedbackRow = FeedbackRow(entry: FeedbackRecord, user: Option<UserRef>)

  function Populate(f: FeedbackRecord, users: map<string, string>): FeedbackRow {
    FeedbackRow(f, if f.userId in users then Some(UserRef(f.userId, users[f.userId])) else None)
  }

  /** `sort({ createdAt: -1 })`: newest first. */
  predicate Newer(f: FeedbackRecord, g: FeedbackRecord) {
    f.createdAt >= g.createdAt
  }

  predicate ForProduct(oid: string, f: FeedbackRecord) {
    f.productId == oid
  }

  /** The feedback for product `oid`, newest first. */
  function FeedbacksFor(store: seq<FeedbackRecord>, oid: string): (r: seq<FeedbackRecord>)
    ensures |r| <= |store|
    ensures forall k :: 0 <= k < |r| ==> r[k].productId == oid
  {
    SortKeeps(Newer, Filter(store, f => ForProduct(oid, f)));
    Sort(Newer, Filter(store, f => ForProduct(oid, f)))
  }

  /**
   * `GET /feedbacks/:productId`. `isValid` is `ObjectId.isValid`, checked
   * before any query; `toObjectId` and `queryFails` are the failures inside
   * the try block; `users` maps user ids to names for the populate step.
   */
  function GetFeedbacks(
    store: seq<FeedbackRecord>, productId: string, isValid: string -> bool,
    toObjectId: JsValue -> Option<string>, users: map<string, string>, queryFails: bool
  ): (r: Reply<seq<FeedbackRow>>)
    ensures r.status in {200, 400, 404, 500}
    ensures r.status == 200 ==> r.Json? && |r.value| > 0
  {
    if !isValid(productId) then Text(400, "Invalid productId format.")
    else
      match toObjectId(Str(productId))
      case None => Text(500, "Error fetching feedbacks.")
      case Some(oid) =>
        if queryFails then Text(500, "Error fetching feedbacks.")
        else
          var found := FeedbacksFor(store, oid);
          if |found| == 0 then Text(404, "No feedback found for this product.")
          else Json(200, seq(|found|, k requires 0 <= k < |found| => Populate(found[k], users)))
  }

  /** A malformed id is answered with 400 before the store is consulted. */
  lemma MalformedIdRejected(
    store: seq<FeedbackRecord>, productId: string, isValid: string -> bool,
    toObjectId: JsValue -> Option<string>, users: map<string, string>, queryFails: bool)
    requires !isValid(productId)
    ensures GetFeedbacks(store, productId, isValid, toObjectId, users, queryFails) == Text(400, "Invalid productId format.")
  {
  }

  /** A failing query is 500. */
  lemma QueryErrorIs500(
    store: seq<FeedbackRecord>, productId: string, isValid: string -> bool,
    toObjectId: JsValue -> Option<string>, users: map<string, string>)
    requires isValid(productId)
    ensures GetFeedbacks(store, productId, isValid, toObjectId, users, true) == Text(500, "Error fetching feedbacks.")
  {
  }

  /** A product without feedback gets 404, never an empty 200. */
  lemma NoFeedbackIs404(
    store: seq<FeedbackRecord>, productId: string, isValid: string -> bool,
    toObjectId: JsValue -> Option<string>, users: map<string, string>)
    requires isValid(productId) && toObjectId(Str(productId)).Some?
    requires forall k :: 0 <= k < |store| ==> store[k].productId != toObjectId(Str(productId)).value
    ensures GetFeedbacks(store, productId, isValid, toObjectId, users, false) == Text(404, "No feedback found for this product.")
  {
  }

  /** The feedback found for a product comes newest first. */
  lemma FeedbacksForNewestFirst(store: seq<FeedbackRecord>, oid: string)
    ensures forall i, j :: 0 <= i < j < |FeedbacksFor(store, oid)| ==>
      FeedbacksFor(store, oid)[i].createdAt >= FeedbacksFor(store, oid)[j].createdAt
  {
    SortSorted(Newer, Filter(store, g => ForProduct(oid, g)));
    var found := FeedbacksFor(store, oid);
    forall i, j | 0 <= i < j < |found| ensures found[i].createdAt >= found[j].createdAt {
      assert Newer(found[i], found[j]);
    }
  }

  /** The feedback found for a product is all of it, each entry as often as stored. */
  lemma FeedbacksForExact(store: seq<FeedbackRecord>, oid: string, f: FeedbackRecord)
    ensures multiset(FeedbacksFor(store, oid))[f] == if f.productId == oid then multiset(store)[f] else 0
  {
    FilterMultiset(store, g => ForProduct(oid, g), f);
  }

  /**
   * Otherwise the reply is 200 with the product's feedback (as
   * `FeedbacksFor` gives it), each joined with its user.
   */
  lemma FeedbacksFound(
    store: seq<FeedbackRecord>, productId: string, isValid: string -> bool,
    toObjectId: JsValue -> Option<string>, users: map<string, string>, k: nat)
    requires isValid(productId) && toObjectId(Str(productId)).Some?
    requires k < |store| && store[k].productId == toObjectId(Str(productId)).value
    ensures var r := GetFeedbacks(store, productId, isValid, toObjectId, users, false);
      var found := FeedbacksFor(store, toObjectId(Str(productId)).value);
      && r.Json? && r.status == 200 && |r.value| == |found|
      && forall i :: 0 <= i < |found| ==> r.value[i] == Populate(found[i], users)
  {
    var oid := toObjectId(Str(productId)).value;
    FeedbacksForExact(store, oid, store[k]);
    assert store[k] in multiset(store);
  }
}
