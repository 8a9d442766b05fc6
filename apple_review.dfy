/**
 * What the iOS and macOS review plugins share: the OS version test of `#available`, the ordered
 * set of review tiers, the App Store URLs with their guards and error codes, and the way a
 * finished iTunes lookup request is turned into a reply.
 */
module AppleReview {
  import opened Wrappers
  import opened Json
  import opened Limits
  import Decimal
  import Itunes

  /** An operating-system version as `#available` compares it. */
  datatype OsVersion = OsVersion(major: nat, minor: nat, patch: nat)

  /** `#available(OS major.minor, *)`: the running version is at least major.minor.0. */
  predicate AtLeast(v: OsVersion, major: nat, minor: nat) {
    v.major > major || (v.major == major && v.minor >= minor)
  }

  /** The ways of asking for a review prompt. */
  datatype Tier = SwiftUIAction | SceneScopedPrompt | GlobalPrompt | Unavailable

  /**
   * What `requestReview` did: the tier chosen, whether the hidden SwiftUI host view was
   * attached, and the completion.
   */
  datatype ReviewRequest = ReviewRequest(tier: Tier, hostViewAttached: bool,
                                         reply: Result<Option<string>, AppleError>)

  /** Preference order of the tiers: 0 is the most capable. */
  function Rank(t: Tier): nat {
    match t
    case SwiftUIAction => 0
    case SceneScopedPrompt => 1
    case GlobalPrompt => 2
    case Unavailable => 3
  }

  const REQUESTED_VIA_SWIFTUI := "Requested Review via SwiftUI"
  const REQUESTED := "Requested Review"
  const NOT_AVAILABLE := "Review not available"

  /** The text `requestReview` completes with once a tier has been chosen. */
  function TierReply(t: Tier): (text: string)
    ensures text == NOT_AVAILABLE <==> t == Unavailable
    ensures text == REQUESTED_VIA_SWIFTUI <==> t == SwiftUIAction
    ensures text == REQUESTED <==> t == SceneScopedPrompt || t == GlobalPrompt
  {
    match t
    case SwiftUIAction => REQUESTED_VIA_SWIFTUI
    case SceneScopedPrompt => REQUESTED
    case GlobalPrompt => REQUESTED
    case Unavailable => NOT_AVAILABLE
  }

  /** Errors the Apple plugins complete with. */
  datatype AppleError =
    | AppReviewError(code: int, description: string)  // an NSError of domain "AppReview"
    | TransportError(description: string)             // the error URLSession reported, passed on
    | JsonSerializationError                          // JSONSerialization threw on the body

  const MISSING_STORE_ID := AppReviewError(404, "Store ID is missing")
  const INVALID_STORE_URL := AppReviewError(400, "Invalid Store URL")
  const INVALID_LOOKUP_URL := AppReviewError(400, "Invalid Lookup URL")

  const LISTING_PREFIX := "https://apps.apple.com/app/id"
  const WRITE_REVIEW_QUERY := "?action=write-review"

  /** Which App Store page is opened. */
  datatype StoreUrlKind = Listing | WriteReview

  /** The App Store page of `storeId`: the listing, or its write-review action. */
  function StoreUrl(kind: StoreUrlKind, storeId: string): (url: string)
    ensures |LISTING_PREFIX| + |storeId| <= |url| && url[..|LISTING_PREFIX|] == LISTING_PREFIX
    ensures url[|LISTING_PREFIX|..|LISTING_PREFIX| + |storeId|] == storeId
    ensures kind == WriteReview <==> |url| == |LISTING_PREFIX| + |storeId| + |WRITE_REVIEW_QUERY|
    ensures kind == WriteReview ==> url[|LISTING_PREFIX| + |storeId|..] == WRITE_REVIEW_QUERY
    ensures kind == Listing ==> |url| == |LISTING_PREFIX| + |storeId|
  {
    match kind
    case Listing => LISTING_PREFIX + storeId
    case WriteReview => LISTING_PREFIX + storeId + WRITE_REVIEW_QUERY
  }

  predicate EndsWith(s: string, suffix: string) {
    |s| >= |suffix| && s[|s| - |suffix|..] == suffix
  }

  /** Reads back the page and the store id from an App Store URL. */
  function ParseStoreUrl(url: string): Option<(StoreUrlKind, string)> {
    if |url| < |LISTING_PREFIX| || url[..|LISTING_PREFIX|] != LISTING_PREFIX then None
    else
      var rest := url[|LISTING_PREFIX|..];
      if EndsWith(rest, WRITE_REVIEW_QUERY) then Some((WriteReview, rest[..|rest| - |WRITE_REVIEW_QUERY|]))
      else Some((Listing, rest))
  }

  /** The review URL is the listing URL followed by the write-review query. */
  lemma WriteReviewExtendsListing(storeId: string)
    ensures StoreUrl(WriteReview, storeId) == StoreUrl(Listing, storeId) + WRITE_REVIEW_QUERY
    ensures StoreUrl(Listing, "123456789") == "https://apps.apple.com/app/id123456789"
    ensures StoreUrl(WriteReview, "123456789") == "https://apps.apple.com/app/id123456789?action=write-review"
  {
  }

  /** The URL names the page and the store id it was built from. */
  lemma StoreUrlRoundTrip(kind: StoreUrlKind, storeId: string)
    requires kind == Listing ==> !EndsWith(storeId, WRITE_REVIEW_QUERY)
    ensures ParseStoreUrl(StoreUrl(kind, storeId)) == Some((kind, storeId))
  {
    var url := StoreUrl(kind, storeId);
    assert url[..|LISTING_PREFIX|] == LISTING_PREFIX;
    var rest := url[|LISTING_PREFIX|..];
    match kind
    case Listing =>
      assert rest == storeId;
    case WriteReview =>
      assert rest == storeId + WRITE_REVIEW_QUERY;
      assert rest[|rest| - |WRITE_REVIEW_QUERY|..] == WRITE_REVIEW_QUERY;
      assert rest[..|rest| - |WRITE_REVIEW_QUERY|] == storeId;
  }

  function OpenFailure(kind: StoreUrlKind): AppleError {
    match kind
    case Listing => AppReviewError(500, "Failed to open store listing")
    case WriteReview => AppReviewError(500, "Failed to open App Store review")
  }

  /** What an open call did: the URL handed to the system opener, if any, and the reply. */
  datatype OpenRun = OpenRun(openedUrl: Option<string>, reply: Result<(), AppleError>)

  /**
   * `openStoreListing` / `openAppStoreReview`: reject a missing or empty store id, build the
   * URL, let `urlParses` (Foundation's `URL(string:)`) accept it, and report what the system
   * opener answered.
   */
  function OpenStorePage(kind: StoreUrlKind, storeId: Option<string>, urlParses: string -> bool,
                         open: string -> bool): (run: OpenRun)
    ensures (storeId.None? || storeId == Some("")) <==> run == OpenRun(None, Failure(MISSING_STORE_ID))
    ensures run.openedUrl.Some? ==>
      storeId.Some? && storeId.value != "" && run.openedUrl == Some(StoreUrl(kind, storeId.value))
    ensures storeId.Some? && storeId.value != "" && !urlParses(StoreUrl(kind, storeId.value)) ==>
      run == OpenRun(None, Failure(INVALID_STORE_URL))
    ensures storeId.Some? && storeId.value != "" && urlParses(StoreUrl(kind, storeId.value)) ==>
      run.openedUrl == Some(StoreUrl(kind, storeId.value))
    ensures run.reply.Success? <==> run.openedUrl.Some? && open(run.openedUrl.value)
    ensures run.openedUrl.Some? && !open(run.openedUrl.value) ==> run.reply == Failure(OpenFailure(kind))
  {
    if storeId.None? || storeId.value == "" then OpenRun(None, Failure(MISSING_STORE_ID))
    else
      var url := StoreUrl(kind, storeId.value);
      if !urlParses(url) then OpenRun(None, Failure(INVALID_STORE_URL))
      else if open(url) then OpenRun(Some(url), Success(()))
      else OpenRun(Some(url), Failure(OpenFailure(kind)))
  }

  /**
   * Swift's `as? Int` on a number JSONSerialization produced: it succeeds exactly when the
   * value is a whole number that a 64-bit `Int` holds.
   */
  function SwiftInt(j: Json): (r: Option<int>)
    ensures r.Some? ==> INT64_MIN <= r.value <= INT64_MAX
    ensures r.Some? ==> j == JInt(r.value) || j == JDecimal(r.value as real)
    ensures j.JInt? && INT64_MIN <= j.i <= INT64_MAX ==> r == Some(j.i)
    ensures j.JDecimal? && j.r == j.r.Floor as real && INT64_MIN <= j.r.Floor <= INT64_MAX ==> r == Some(j.r.Floor)
  {
    match j
    case JInt(i) => if INT64_MIN <= i <= INT64_MAX then Some(i) else None
    case JDecimal(x) =>
      if x == x.Floor as real && INT64_MIN <= x.Floor <= INT64_MAX then Some(x.Floor) else None
    case _ => None
  }

  /**
   * The `trackId` of the first result when the body is an object whose `results` is an array
   * of objects, that array is not empty, and its first element holds an `Int` `trackId`.
   */
  function FirstTrackId(j: Json): (r: Option<int>)
    ensures r.Some? ==>
      && j.JObject? && "results" in j.members
      && j.members["results"].JArray? && |j.members["results"].items| > 0
      && AllObjects(j.members["results"].items)
      && "trackId" in j.members["results"].items[0].members
      && SwiftInt(j.members["results"].items[0].members["trackId"]) == r
    ensures (&& j.JObject? && "results" in j.members
             && j.members["results"].JArray? && |j.members["results"].items| > 0
             && AllObjects(j.members["results"].items)
             && "trackId" in j.members["results"].items[0].members) ==>
      r == SwiftInt(j.members["results"].items[0].members["trackId"])
  {
    match j
    case JObject(top) =>
      if "results" !in top then None
      else
        (match top["results"]
         case JArray(results) =>
           if !AllObjects(results) || |results| == 0 then None
           else if "trackId" !in results[0].members then None
           else SwiftInt(results[0].members["trackId"])
         case _ => None)
    case _ => None
  }

  /** The body the directory answers with for an app it knows. */
  lemma FirstTrackIdOfListedApp(trackId: int, first: map<string, Json>, others: seq<Json>)
    requires INT64_MIN <= trackId <= INT64_MAX
    requires AllObjects(others)
    ensures FirstTrackId(JObject(map["results" := JArray([JObject(first["trackId" := JInt(trackId)])] + others)]))
            == Some(trackId)
  {
    var results := [JObject(first["trackId" := JInt(trackId)])] + others;
    assert forall i :: 1 <= i < |results| ==> results[i] == others[i - 1];
    assert AllObjects(results);
  }

  /**
   * Shape mismatches give no track id: a body that is not an object, one without `results`,
   * a `results` that is not an array of objects, and an empty `results`.
   */
  lemma FirstTrackIdShapeMismatch(j: Json)
    requires || !j.JObject?
             || "results" !in j.members
             || !j.members["results"].JArray?
             || !AllObjects(j.members["results"].items)
             || j.members["results"].items == []
    ensures FirstTrackId(j) == None
  {
  }

  /** How URLSession's data task finished: its error, its data, and the HTTP status. */
  datatype TaskCompletion = TaskCompletion(error: Option<string>, data: Option<Body>, statusCode: int)

  /**
   * `JSONSerialization.jsonObject(with:options: [])` returns only for a body whose top level is
   * an object or an array; without `.fragmentsAllowed` it throws on a bare scalar, as on text
   * that is not JSON.
   */
  predicate Deserializes(b: Body) {
    b.Parsed? && (b.value.JObject? || b.value.JArray?)
  }

  /**
   * The completion handler of the lookup task: a transport error and a body that JSONSerialization
   * refuses are surfaced; no data and every shape mismatch are an empty result; otherwise the
   * first result's `trackId` in decimal.
   */
  function InterpretCompletion(c: TaskCompletion): (r: Result<Option<string>, AppleError>)
    ensures c.error.Some? ==> r == Failure(TransportError(c.error.value))
    ensures c.error.None? && c.data.Some? && !Deserializes(c.data.value) ==> r == Failure(JsonSerializationError)
    ensures r.Failure? <==> c.error.Some? || (c.data.Some? && !Deserializes(c.data.value))
    ensures r == Success(None) <==>
      c.error.None? && (c.data.None? || (Deserializes(c.data.value) && FirstTrackId(c.data.value.value).None?))
    ensures r.Success? && r.value.Some? ==>
      c.data.Some? && Deserializes(c.data.value) &&
      Decimal.ParseDecimal(r.value.value) == FirstTrackId(c.data.value.value)
    ensures c.error.None? && c.data.Some? && Deserializes(c.data.value) && FirstTrackId(c.data.value.value).Some? ==>
      r == Success(Some(Decimal.IntToDecimal(FirstTrackId(c.data.value.value).value)))
  {
    if c.error.Some? then Failure(TransportError(c.error.value))
    else if c.data.None? then Success(None)
    else if !Deserializes(c.data.value) then Failure(JsonSerializationError)
    else
      var trackId := FirstTrackId(c.data.value.value);
      if trackId.None? then Success(None)
      else
        Decimal.DecimalRoundTrip(trackId.value);
        Success(Some(Decimal.IntToDecimal(trackId.value)))
  }

  /** The HTTP status of the response plays no part in the reply. */
  lemma CompletionIgnoresStatus(c: TaskCompletion, statusCode: int)
    ensures InterpretCompletion(c.(statusCode := statusCode)) == InterpretCompletion(c)
  {
  }

  /** What a lookup did: the URL requested, if any, and the reply. */
  datatype LookupRun = LookupRun(requested: Option<string>, reply: Result<Option<string>, AppleError>)

  /**
   * `lookupAppId`: build the lookup URL; if `URL(string:)` refuses it, fail with code 400 and
   * request nothing; otherwise request it once and interpret how the task finished.
   */
  function LookupAppId(bundleId: string, countryCode: Option<string>, urlParses: string -> bool,
                       completion: TaskCompletion): (run: LookupRun)
    ensures run.requested.None? <==> !urlParses(Itunes.LookupUrl(bundleId, countryCode))
    ensures run.requested.None? ==> run.reply == Failure(INVALID_LOOKUP_URL)
    ensures run.requested.Some? ==>
      run.requested.value == Itunes.LookupUrl(bundleId, countryCode) && run.reply == InterpretCompletion(completion)
  {
    var url := Itunes.LookupUrl(bundleId, countryCode);
    if !urlParses(url) then LookupRun(None, Failure(INVALID_LOOKUP_URL))
    else LookupRun(Some(url), InterpretCompletion(completion))
  }

  /**
   * The example responses: a listed app, an unknown app, a body that is not JSON, a bare number,
   * no connection.
   */
  lemma LookupExamples(urlParses: string -> bool)
    requires urlParses(Itunes.LookupUrl("com.example.app", None))
    ensures LookupAppId("com.example.app", None, urlParses,
              TaskCompletion(None, Some(Parsed(ListedAppBody(123456789))), 200)).reply
            == Success(Some("123456789"))
    ensures LookupAppId("com.example.app", None, urlParses,
              TaskCompletion(None, Some(Parsed(JObject(map["results" := JArray([])]))), 200)).reply
            == Success(None)
    ensures LookupAppId("com.example.app", None, urlParses, TaskCompletion(None, Some(NotJson), 200)).reply
            == Failure(JsonSerializationError)
    ensures LookupAppId("com.example.app", None, urlParses, TaskCompletion(None, Some(Parsed(JInt(42))), 200)).reply
            == Failure(JsonSerializationError)
    ensures LookupAppId("com.example.app", None, urlParses,
              TaskCompletion(Some("The Internet connection appears to be offline."), None, 0)).reply.Failure?
  {
    FirstTrackIdOfListedApp(123456789, map[], []);
    assert map[]["trackId" := JInt(123456789)] == map["trackId" := JInt(123456789)];
    Decimal.RenderExample();
  }
}
