/**
 * The Android review plugin. It keeps the attached activity (through a weak reference), the
 * Play review manager and a cached `ReviewInfo`. The asynchronous Play tasks are given as their
 * outcomes; the platform's `startActivity`, `java.net.URL` and org.json parser are parameters.
 */
module AndroidAppReview {
  import opened Wrappers
  import opened Json
  import opened Limits
  import Decimal
  import Itunes

  datatype Activity = Activity(packageName: string)

  /** A `WeakReference<Activity>`: its referent is gone once the activity was collected. */
  datatype WeakRef = WeakRef(referent: Option<Activity>)

  /** A review manager and the activity it was created for. */
  datatype Manager = RealManager(context: Activity) | FakeManager(context: Activity)

  /** The token Play hands out for one review flow. */
  datatype ReviewInfo = ReviewInfo(token: nat)

  /** Errors the plugin replies with. */
  datatype PluginError =
    | Exception(message: string)     // an Exception the plugin raises itself
    | ActivityNotFound               // no activity handles the intent
    | StartFailed(message: string)   // startActivity raised anything else
    | MalformedUrl                   // java.net.URL refused the lookup URL
    | IoFailure(message: string)     // the connection or the response stream failed
    | JsonFailure                    // org.json refused the body or its shape

  const ACTIVITY_NOT_AVAILABLE := Exception("Android activity not available")
  const MANAGER_NOT_INITIALIZED := Exception("ReviewManager not initialized")
  const REVIEW_NOT_POSSIBLE := Exception("Requesting review not possible")

  /** How `requestReviewFlow()` completed. */
  datatype FlowResult = FlowFailed | FlowSucceeded(info: ReviewInfo)

  /** The three fields of the plugin. */
  datatype PluginState = PluginState(currentActivity: Option<WeakRef>, manager: Option<Manager>,
                                     reviewInfo: Option<ReviewInfo>)

  /** `currentActivity != null && currentActivity.get() != null`, and that activity. */
  function AttachedActivity(s: PluginState): Option<Activity> {
    if s.currentActivity.None? then None else s.currentActivity.value.referent
  }

  /**
   * The manager `requestReview` works with: in test mode always a fresh fake; otherwise a real
   * manager replaces a missing or fake one, and a real one is kept.
   */
  function NextManager(m: Option<Manager>, testMode: bool, a: Activity): (r: Manager)
    ensures r.FakeManager? <==> testMode
    ensures !testMode && m.Some? && m.value.RealManager? ==> r == m.value
    ensures m.None? || m.value.FakeManager? || testMode ==> r.context == a
  {
    if testMode then FakeManager(a)
    else if m.None? || m.value.FakeManager? then RealManager(a)
    else m.value
  }

  /** The manager rule is stable: applying it again changes nothing. */
  lemma NextManagerIdempotent(m: Option<Manager>, testMode: bool, a: Activity)
    ensures NextManager(Some(NextManager(m, testMode, a)), testMode, a) == NextManager(m, testMode, a)
  {
  }

  /** The reply of a finished review flow: "Success: " and whether the task succeeded. */
  function LaunchReply(taskSucceeded: bool): string {
    "Success: " + (if taskSucceeded then "true" else "false")
  }

  /** The state after a review request, the `ReviewInfo` the flow was launched with, the reply. */
  datatype ReviewStep = ReviewStep(state: PluginState, launched: Option<ReviewInfo>,
                                   reply: Result<string, PluginError>)

  /**
   * `requestReview`: needs an activity; settles the manager; launches the flow with the cached
   * `ReviewInfo` and clears it, or first fetches one and enters again.
   */
  function RequestReviewStep(s: PluginState, testMode: bool, flow: FlowResult, launchSucceeded: bool): (step: ReviewStep)
    ensures AttachedActivity(s).None? ==> step == ReviewStep(s, None, Failure(ACTIVITY_NOT_AVAILABLE))
    ensures AttachedActivity(s).Some? && s.reviewInfo.Some? ==>
      step.launched == s.reviewInfo && step.state.reviewInfo.None? && step.reply == Success(LaunchReply(launchSucceeded))
    ensures AttachedActivity(s).Some? && s.reviewInfo.None? && flow.FlowFailed? ==>
      step.launched.None? && step.reply == Failure(REVIEW_NOT_POSSIBLE)
    ensures AttachedActivity(s).Some? && s.reviewInfo.None? && flow.FlowSucceeded? ==>
      step.launched == Some(flow.info) && step.state.reviewInfo.None? && step.reply == Success(LaunchReply(launchSucceeded))
    decreases if s.reviewInfo.None? then 2 else 0
  {
    var a := AttachedActivity(s);
    if a.None? then ReviewStep(s, None, Failure(ACTIVITY_NOT_AVAILABLE))
    else
      var s1 := s.(manager := Some(NextManager(s.manager, testMode, a.value)));
      if s1.reviewInfo.None? then FetchInfoStep(s1, testMode, flow, launchSucceeded)
      else ReviewStep(s1.(reviewInfo := None), s1.reviewInfo, Success(LaunchReply(launchSucceeded)))
  }

  /** `getReviewInfoAndRequestReview`: ask Play for a `ReviewInfo`, cache it, request again. */
  function FetchInfoStep(s: PluginState, testMode: bool, flow: FlowResult, launchSucceeded: bool): (step: ReviewStep)
    ensures s.manager.None? ==> step == ReviewStep(s, None, Failure(MANAGER_NOT_INITIALIZED))
    ensures s.manager.Some? && flow.FlowFailed? ==> step == ReviewStep(s, None, Failure(REVIEW_NOT_POSSIBLE))
    ensures s.manager.Some? && flow.FlowSucceeded? && AttachedActivity(s).None? ==>
      step == ReviewStep(s.(reviewInfo := Some(flow.info)), None, Failure(ACTIVITY_NOT_AVAILABLE))
    ensures s.manager.Some? && flow.FlowSucceeded? && AttachedActivity(s).Some? ==>
      step.launched == Some(flow.info) && step.state.reviewInfo.None? && step.reply == Success(LaunchReply(launchSucceeded)) &&
      step.state.currentActivity == s.currentActivity &&
      step.state.manager == Some(NextManager(s.manager, testMode, AttachedActivity(s).value))
    decreases 1
  {
    if s.manager.None? then ReviewStep(s, None, Failure(MANAGER_NOT_INITIALIZED))
    else
      match flow
      case FlowFailed => ReviewStep(s, None, Failure(REVIEW_NOT_POSSIBLE))
      case FlowSucceeded(info) => RequestReviewStep(s.(reviewInfo := Some(info)), testMode, flow, launchSucceeded)
  }

  /** Without an attached activity a review request fails and changes nothing. */
  lemma RequestReviewNeedsActivity(s: PluginState, testMode: bool, flow: FlowResult, launchSucceeded: bool)
    requires AttachedActivity(s).None?
    ensures RequestReviewStep(s, testMode, flow, launchSucceeded) == ReviewStep(s, None, Failure(ACTIVITY_NOT_AVAILABLE))
  {
  }

  /**
   * With an activity: the flow is launched exactly when a `ReviewInfo` was cached or could be
   * fetched, and with that `ReviewInfo`; afterwards none is cached and the reply reports the
   * launch; a failed fetch is the error "Requesting review not possible". The activity is never
   * touched and the manager follows `NextManager`.
   */
  lemma RequestReviewOutcome(s: PluginState, testMode: bool, flow: FlowResult, launchSucceeded: bool)
    requires AttachedActivity(s).Some?
    ensures var step := RequestReviewStep(s, testMode, flow, launchSucceeded);
      && step.state.currentActivity == s.currentActivity
      && step.state.manager == Some(NextManager(s.manager, testMode, AttachedActivity(s).value))
      && (step.launched.Some? <==> s.reviewInfo.Some? || flow.FlowSucceeded?)
      && (s.reviewInfo.Some? ==> step.launched == s.reviewInfo)
      && (s.reviewInfo.None? && flow.FlowSucceeded? ==> step.launched == Some(flow.info))
      && (step.launched.Some? ==> step.state.reviewInfo.None? && step.reply == Success(LaunchReply(launchSucceeded)))
      && (step.launched.None? ==> step.state.reviewInfo.None? && step.reply == Failure(REVIEW_NOT_POSSIBLE))
  {
    var a := AttachedActivity(s).value;
    var s1 := s.(manager := Some(NextManager(s.manager, testMode, a)));
    if s.reviewInfo.None? && flow.FlowSucceeded? {
      var s2 := s1.(reviewInfo := Some(flow.info));
      assert AttachedActivity(s2) == Some(a);
      NextManagerIdempotent(s.manager, testMode, a);
      assert RequestReviewStep(s, testMode, flow, launchSucceeded) == RequestReviewStep(s2, testMode, flow, launchSucceeded);
    }
  }

  /** The state after `isRequestReviewAvailable`, and its reply. */
  datatype AvailabilityStep = AvailabilityStep(state: PluginState, reply: Result<bool, PluginError>)

  /**
   * `isRequestReviewAvailable`: an error without a manager; otherwise whether Play could
   * start a review flow, caching its `ReviewInfo` when it could.
   */
  function IsAvailableStep(s: PluginState, flow: FlowResult): (step: AvailabilityStep)
    ensures s.manager.None? <==> step.reply == Failure(MANAGER_NOT_INITIALIZED)
    ensures s.manager.Some? ==> step.reply == Success(flow.FlowSucceeded?)
    ensures step.state.reviewInfo == if s.manager.Some? && flow.FlowSucceeded? then Some(flow.info) else s.reviewInfo
    ensures step.state.currentActivity == s.currentActivity && step.state.manager == s.manager
  {
    if s.manager.None? then AvailabilityStep(s, Failure(MANAGER_NOT_INITIALIZED))
    else
      match flow
      case FlowSucceeded(info) => AvailabilityStep(s.(reviewInfo := Some(info)), Success(true))
      case FlowFailed => AvailabilityStep(s, Success(false))
  }

  /** A cached `ReviewInfo` from an availability check is what the next request launches. */
  lemma AvailabilityCacheFeedsRequest(s: PluginState, flow: FlowResult, testMode: bool, laterFlow: FlowResult,
                                      launchSucceeded: bool)
    requires AttachedActivity(s).Some? && s.manager.Some? && flow.FlowSucceeded?
    ensures RequestReviewStep(IsAvailableStep(s, flow).state, testMode, laterFlow, launchSucceeded).launched
            == Some(flow.info)
  {
    var s1 := IsAvailableStep(s, flow).state;
    assert AttachedActivity(s1) == AttachedActivity(s);
    RequestReviewOutcome(s1, testMode, laterFlow, launchSucceeded);
  }

  /** How `startActivity` went for an intent. */
  datatype StartResult = Started | NoActivityFound | Raised(message: string)

  /** The URIs handed to `startActivity`, in order, and the reply. */
  datatype OpenRun = OpenRun(attempts: seq<string>, reply: Result<(), PluginError>)

  const MARKET_PREFIX := "market://details?id="
  const PLAY_PREFIX := "https://play.google.com/store/apps/details?id="

  /** Java string concatenation renders a null string as "null". */
  function JavaString(s: Option<string>): string {
    s.GetOr("null")
  }

  /** The lines of a response, joined without their line terminators (the `StringBuilder`). */
  function Concat(lines: seq<string>): (response: string)
    ensures |lines| == 1 ==> response == lines[0]
    ensures forall i :: 0 <= i < |lines| ==> |lines[i]| <= |response|
  {
    if lines == [] then "" else Concat(lines[..|lines| - 1]) + lines[|lines| - 1]
  }

  /** Reading the lines in two batches gives the same response as reading them at once. */
  lemma {:induction false} ConcatAppend(first: seq<string>, rest: seq<string>)
    ensures Concat(first + rest) == Concat(first) + Concat(rest)
  {
    if rest == [] {
      assert first + rest == first;
    } else {
      var all := first + rest;
      assert all[..|all| - 1] == first + rest[..|rest| - 1];
      ConcatAppend(first, rest[..|rest| - 1]);
    }
  }

  /** Java's `long` to `int` conversion: the low 32 bits, as a signed value. */
  function Wrap32(i: int): (r: int)
    ensures INT32_MIN <= r <= INT32_MAX
    ensures (r - i) % 0x1_0000_0000 == 0
    ensures INT32_MIN <= i <= INT32_MAX ==> r == i
  {
    (i - INT32_MIN) % 0x1_0000_0000 + INT32_MIN
  }

  /** Java's `double` to `int` conversion of a whole number: clamped to the `int` range. */
  function Saturate32(i: int): (r: int)
    ensures INT32_MIN <= r <= INT32_MAX
    ensures INT32_MIN <= i <= INT32_MAX ==> r == i
    ensures i < INT32_MIN ==> r == INT32_MIN
    ensures i > INT32_MAX ==> r == INT32_MAX
  {
    if i < INT32_MIN then INT32_MIN else if i > INT32_MAX then INT32_MAX else i
  }

  /** Rounding toward zero, as Java's casts from `double` do. */
  function TruncateTowardZero(x: real): (r: int)
    ensures 0.0 <= x ==> r as real <= x < r as real + 1.0
    ensures x < 0.0 ==> r as real - 1.0 < x <= r as real
  {
    if x >= 0.0 then x.Floor else -((-x).Floor)
  }

  /** Java's `double` to `long` conversion of a whole number: clamped to the `long` range. */
  function Saturate64(i: int): (r: int)
    ensures INT64_MIN <= r <= INT64_MAX
    ensures INT64_MIN <= i <= INT64_MAX ==> r == i
    ensures i < INT64_MIN ==> r == INT64_MIN
    ensures i > INT64_MAX ==> r == INT64_MAX
  {
    if i < INT64_MIN then INT64_MIN else if i > INT64_MAX then INT64_MAX else i
  }

  /**
   * `getInt` on a value of Android's org.json: an integer literal becomes an Integer or a Long
   * (whose `intValue` keeps the low 32 bits), a longer one or a fraction a Double (whose
   * `intValue` truncates and clamps), a decimal numeral string is read as a number; anything
   * else is a type mismatch.
   */
  function JavaInt(j: Json): (r: Option<int>)
    ensures r.Some? ==> INT32_MIN <= r.value <= INT32_MAX
    ensures j.JInt? && INT32_MIN <= j.i <= INT32_MAX ==> r == Some(j.i)
    ensures j.JInt? && INT64_MIN <= j.i <= INT64_MAX ==> r == Some(Wrap32(j.i))
    ensures j.JNull? || j.JBool? || j.JArray? || j.JObject? ==> r.None?
  {
    match j
    case JInt(i) => if INT64_MIN <= i <= INT64_MAX then Some(Wrap32(i)) else Some(Saturate32(i))
    case JDecimal(x) => Some(Saturate32(TruncateTowardZero(x)))
    case JString(text) =>
      (match Decimal.ParseDecimal(text)
       case Some(n) => Some(Saturate32(n))
       case None => None)
    case _ => None
  }

  /**
   * `getLong` on a value of Android's org.json: the same coercions as `getInt`, into the 64-bit
   * range, so that every integer literal a `long` holds is read exactly.
   */
  function JavaLong(j: Json): (r: Option<int>)
    ensures r.Some? ==> INT64_MIN <= r.value <= INT64_MAX
    ensures j.JInt? && INT64_MIN <= j.i <= INT64_MAX ==> r == Some(j.i)
    ensures j.JNull? || j.JBool? || j.JArray? || j.JObject? ==> r.None?
  {
    match j
    case JInt(i) => Some(Saturate64(i))
    case JDecimal(x) => Some(Saturate64(TruncateTowardZero(x)))
    case JString(text) =>
      (match Decimal.ParseDecimal(text)
       case Some(n) => Some(Saturate64(n))
       case None => None)
    case _ => None
  }

  /** The body is an object whose `results` array starts with an object holding `trackId`. */
  predicate FirstHasTrackId(b: Body) {
    && b.Parsed? && b.value.JObject? && "results" in b.value.members
    && b.value.members["results"].JArray? && b.value.members["results"].items != []
    && b.value.members["results"].items[0].JObject?
    && "trackId" in b.value.members["results"].items[0].members
  }

  /** The first result's `trackId` value. */
  function FirstTrackIdValue(b: Body): Json
    requires FirstHasTrackId(b)
  {
    b.value.members["results"].items[0].members["trackId"]
  }

  /**
   * The body of a 200 response, with `readNumber` as the accessor for `trackId`:
   * `new JSONObject(body).getJSONArray("results")` must succeed; an empty array or a first
   * object without `trackId` is an empty result; otherwise the number read, in decimal. Every
   * refusal by org.json is an error.
   */
  function InterpretBodyWith(b: Body, readNumber: Json -> Option<int>): (r: Result<Option<string>, PluginError>)
    ensures r.Failure? ==> r.error == JsonFailure
    ensures b == NotJson ==> r.Failure?
    ensures (b.Parsed? && (!b.value.JObject? || "results" !in b.value.members)) ==> r.Failure?
    ensures r == Success(None) <==>
      && b.Parsed? && b.value.JObject? && "results" in b.value.members
      && b.value.members["results"].JArray?
      && var results := b.value.members["results"].items;
         (results == [] || (results[0].JObject? && "trackId" !in results[0].members))
    ensures r.Success? && r.value.Some? ==>
      FirstHasTrackId(b) && Decimal.ParseDecimal(r.value.value) == readNumber(FirstTrackIdValue(b))
    ensures FirstHasTrackId(b) ==> (r.Success? <==> readNumber(FirstTrackIdValue(b)).Some?)
    ensures FirstHasTrackId(b) && readNumber(FirstTrackIdValue(b)).Some? ==>
      r == Success(Some(Decimal.IntToDecimal(readNumber(FirstTrackIdValue(b)).value)))
  {
    match b
    case NotJson => Failure(JsonFailure)
    case Parsed(top) =>
      if !top.JObject? || "results" !in top.members || !top.members["results"].JArray? then Failure(JsonFailure)
      else
        var results := top.members["results"].items;
        if results == [] then Success(None)
        else if !results[0].JObject? then Failure(JsonFailure)
        else if "trackId" !in results[0].members then Success(None)
        else
          match readNumber(results[0].members["trackId"])
          case None => Failure(JsonFailure)
          case Some(n) =>
            Decimal.DecimalRoundTrip(n);
            Success(Some(Decimal.IntToDecimal(n)))
  }

  /** The body as the plugin reads it, with `getInt("trackId")`. */
  function InterpretBodyAsWritten(b: Body): (r: Result<Option<string>, PluginError>)
    ensures r.Success? && r.value.Some? ==>
      && Decimal.ParseDecimal(r.value.value).Some?
      && INT32_MIN <= Decimal.ParseDecimal(r.value.value).value <= INT32_MAX
    ensures FirstHasTrackId(b) && FirstTrackIdValue(b).JInt? && INT64_MIN <= FirstTrackIdValue(b).i <= INT64_MAX ==>
      r == Success(Some(Decimal.IntToDecimal(Wrap32(FirstTrackIdValue(b).i))))
  {
    InterpretBodyWith(b, JavaInt)
  }

  /** The body read with `getLong("trackId")`, which keeps every App Store id whole. */
  function InterpretBody(b: Body): (r: Result<Option<string>, PluginError>)
    ensures r.Success? && r.value.Some? ==>
      && Decimal.ParseDecimal(r.value.value).Some?
      && INT64_MIN <= Decimal.ParseDecimal(r.value.value).value <= INT64_MAX
    ensures FirstHasTrackId(b) && FirstTrackIdValue(b).JInt? && INT64_MIN <= FirstTrackIdValue(b).i <= INT64_MAX ==>
      r == Success(Some(Decimal.IntToDecimal(FirstTrackIdValue(b).i)))
  {
    InterpretBodyWith(b, JavaLong)
  }

  /**
   * An App Store id above 2147483647, such as 6448311069, comes back from `getInt` as a
   * different, negative number.
   */
  lemma GetIntWrapsLargeTrackIds()
    ensures var r := InterpretBodyAsWritten(Parsed(ListedAppBody(6448311069)));
      && r.Success? && r.value.Some?
      && Decimal.ParseDecimal(r.value.value) == Some(-2141623523)
      && r.value.value != Decimal.IntToDecimal(6448311069)
  {
    var body := ListedAppBody(6448311069);
    var first := body.members["results"].items[0];
    assert first.members["trackId"] == JInt(6448311069);
    assert JavaInt(JInt(6448311069)) == Some(-2141623523);
    var r := InterpretBodyAsWritten(Parsed(body));
    Decimal.DecimalRoundTrip(6448311069);
  }

  /** Read with `getLong`, the first result's id is answered exactly, for every 64-bit id. */
  lemma ListedAppIdIsExact(trackId: int)
    requires INT64_MIN <= trackId <= INT64_MAX
    ensures InterpretBody(Parsed(ListedAppBody(trackId))) == Success(Some(Decimal.IntToDecimal(trackId)))
  {
    var body := ListedAppBody(trackId);
    assert body.members["results"].items[0].members["trackId"] == JInt(trackId);
    var r := InterpretBody(Parsed(body));
    assert r.Success? && r.value.Some?;
    Decimal.DecimalRoundTrip(trackId);
    var other := Decimal.ParseDecimal(r.value.value).value;
    assert other == trackId;
  }

  /** How the HTTP exchange went: a failure to connect or read, or a status and the body's lines. */
  datatype Connection = ConnectionFailed(message: string) | Responded(statusCode: int, lines: seq<string>)

  /** What a lookup did: the URL requested, if any, and the reply. */
  datatype LookupRun = LookupRun(requested: Option<string>, reply: Result<Option<string>, PluginError>)

  /**
   * `lookupAppId`: only a 200 response is read; any other status is an empty result; every
   * exception on the way is an error.
   */
  function LookupSpec(bundleId: string, countryCode: Option<string>, urlParses: string -> bool,
                      connection: Connection, parse: string -> Body): (run: LookupRun)
    ensures run.requested.None? <==> !urlParses(Itunes.LookupUrl(bundleId, countryCode))
    ensures run.requested.None? ==> run.reply == Failure(MalformedUrl)
    ensures run.requested.Some? ==> run.requested.value == Itunes.LookupUrl(bundleId, countryCode)
    ensures run.requested.Some? && connection.ConnectionFailed? ==> run.reply == Failure(IoFailure(connection.message))
    ensures run.requested.Some? && connection.Responded? && connection.statusCode != 200 ==> run.reply == Success(None)
    ensures run.requested.Some? && connection.Responded? && connection.statusCode == 200 ==>
      run.reply == InterpretBody(parse(Concat(connection.lines)))
  {
    var url := Itunes.LookupUrl(bundleId, countryCode);
    if !urlParses(url) then LookupRun(None, Failure(MalformedUrl))
    else
      match connection
      case ConnectionFailed(message) => LookupRun(Some(url), Failure(IoFailure(message)))
      case Responded(statusCode, lines) =>
        if statusCode != 200 then LookupRun(Some(url), Success(None))
        else LookupRun(Some(url), InterpretBody(parse(Concat(lines))))
  }

  class AppReviewPlugin {
    var currentActivity: Option<WeakRef>
    var manager: Option<Manager>
    var reviewInfo: Option<ReviewInfo>

    function State(): PluginState
      reads this
    {
      PluginState(currentActivity, manager, reviewInfo)
    }

    constructor()
      ensures State() == PluginState(None, None, None)
    {
      currentActivity, manager, reviewInfo := None, None, None;
    }

    method IsRequestReviewAvailable(flow: FlowResult) returns (reply: Result<bool, PluginError>)
      modifies this
      ensures AvailabilityStep(State(), reply) == IsAvailableStep(old(State()), flow)
    {
      if manager.None? {
        reply := Failure(MANAGER_NOT_INITIALIZED);
        return;
      }
      match flow
      case FlowSucceeded(info) =>
        reviewInfo := Some(info);
        reply := Success(true);
      case FlowFailed =>
        reply := Success(false);
    }

    method RequestReview(testMode: bool, flow: FlowResult, launchSucceeded: bool)
      returns (launched: Option<ReviewInfo>, reply: Result<string, PluginError>)
      modifies this
      ensures ReviewStep(State(), launched, reply) == RequestReviewStep(old(State()), testMode, flow, launchSucceeded)
      decreases if reviewInfo.None? then 2 else 0
    {
      var activity := AttachedActivity(State());
      if activity.None? {
        launched, reply := None, Failure(ACTIVITY_NOT_AVAILABLE);
        return;
      }
      if testMode {
        manager := Some(FakeManager(activity.value));
      } else if manager.None? || manager.value.FakeManager? {
        manager := Some(RealManager(activity.value));
      }
      if reviewInfo.None? {
        launched, reply := GetReviewInfoAndRequestReview(testMode, flow, launchSucceeded);
        return;
      }
      launched := reviewInfo;
      reviewInfo := None;
      reply := Success(LaunchReply(launchSucceeded));
    }

    method GetReviewInfoAndRequestReview(testMode: bool, flow: FlowResult, launchSucceeded: bool)
      returns (launched: Option<ReviewInfo>, reply: Result<string, PluginError>)
      modifies this
      ensures ReviewStep(State(), launched, reply) == FetchInfoStep(old(State()), testMode, flow, launchSucceeded)
      decreases 1
    {
      if manager.None? {
        launched, reply := None, Failure(MANAGER_NOT_INITIALIZED);
        return;
      }
      match flow
      case FlowFailed =>
        launched, reply := None, Failure(REVIEW_NOT_POSSIBLE);
      case FlowSucceeded(info) =>
        reviewInfo := Some(info);
        launched, reply := RequestReview(testMode, flow, launchSucceeded);
    }

    /** `getBundleId`: the attached activity's package name. */
    function GetBundleId(): (r: Result<string, PluginError>)
      reads this
      ensures r.Failure? <==> AttachedActivity(State()).None?
      ensures r.Failure? ==> r.error == ACTIVITY_NOT_AVAILABLE
      ensures r.Success? ==> r.value == AttachedActivity(State()).value.packageName
    {
      if AttachedActivity(State()).None? then Failure(ACTIVITY_NOT_AVAILABLE)
      else Success(AttachedActivity(State()).value.packageName)
    }

    /**
     * `openStoreListing`: with an activity, open the Play Store app's page; only if no activity
     * handles that intent, open the web page instead. An exception other than "no activity found"
     * on the first attempt escapes the method and reaches the caller as an error.
     */
    function OpenStoreListing(storeId: Option<string>, start: string -> StartResult): (run: OpenRun)
      reads this
      ensures AttachedActivity(State()).None? <==> run == OpenRun([], Failure(ACTIVITY_NOT_AVAILABLE))
      ensures |run.attempts| <= 2
      ensures run.attempts != [] ==> run.attempts[0] == MARKET_PREFIX + JavaString(storeId)
      ensures |run.attempts| == 2 <==> AttachedActivity(State()).Some? && start(MARKET_PREFIX + JavaString(storeId)) == NoActivityFound
      ensures |run.attempts| == 2 ==> run.attempts[1] == PLAY_PREFIX + JavaString(storeId)
      ensures run.reply.Success? <==> run.attempts != [] && start(run.attempts[|run.attempts| - 1]) == Started
      ensures AttachedActivity(State()).Some? ==> run.attempts != []
      ensures AttachedActivity(State()).Some? && start(MARKET_PREFIX + JavaString(storeId)).Raised? ==>
        run == OpenRun([MARKET_PREFIX + JavaString(storeId)],
                       Failure(StartFailed(start(MARKET_PREFIX + JavaString(storeId)).message)))
      ensures |run.attempts| == 2 && start(run.attempts[1]) == NoActivityFound ==> run.reply == Failure(ActivityNotFound)
      ensures |run.attempts| == 2 && start(run.attempts[1]).Raised? ==>
        run.reply == Failure(StartFailed(start(run.attempts[1]).message))
    {
      if AttachedActivity(State()).None? then OpenRun([], Failure(ACTIVITY_NOT_AVAILABLE))
      else
        var market := MARKET_PREFIX + JavaString(storeId);
        match start(market)
        case Started => OpenRun([market], Success(()))
        case Raised(message) => OpenRun([market], Failure(StartFailed(message)))
        case NoActivityFound =>
          var web := PLAY_PREFIX + JavaString(storeId);
          match start(web)
          case Started => OpenRun([market, web], Success(()))
          case NoActivityFound => OpenRun([market, web], Failure(ActivityNotFound))
          case Raised(message) => OpenRun([market, web], Failure(StartFailed(message)))
    }

    /** `openAppStoreReview` opens the same pages as `openStoreListing`. */
    function OpenAppStoreReview(storeId: Option<string>, start: string -> StartResult): (run: OpenRun)
      reads this
      ensures run == OpenStoreListing(storeId, start)
    {
      OpenStoreListing(storeId, start)
    }

    /** The `readLine` loop: the response lines appended one by one to a `StringBuilder`. */
    static method ReadResponse(lines: seq<string>) returns (response: string)
      ensures response == Concat(lines)
    {
      response := "";
      var i := 0;
      while i < |lines|
        invariant 0 <= i <= |lines|
        invariant response == Concat(lines[..i])
      {
        assert lines[..i + 1][..i] == lines[..i];
        response := response + lines[i];
        i := i + 1;
      }
      assert lines[..|lines|] == lines;
    }

    /** `lookupAppId`, with the body of a 200 response read by `ReadResponse`. */
    method LookupAppId(bundleId: string, countryCode: Option<string>, urlParses: string -> bool,
                       connection: Connection, parse: string -> Body) returns (run: LookupRun)
      ensures run == LookupSpec(bundleId, countryCode, urlParses, connection, parse)
    {
      var url := Itunes.LookupUrl(bundleId, countryCode);
      if !urlParses(url) {
        return LookupRun(None, Failure(MalformedUrl));
      }
      match connection
      case ConnectionFailed(message) =>
        run := LookupRun(Some(url), Failure(IoFailure(message)));
      case Responded(statusCode, lines) =>
        if statusCode != 200 {
          run := LookupRun(Some(url), Success(None));
        } else {
          var response := ReadResponse(lines);
          run := LookupRun(Some(url), InterpretBody(parse(response)));
        }
    }

    method OnAttachedToActivity(activity: Activity)
      modifies this
      ensures State() == PluginState(Some(WeakRef(Some(activity))), Some(RealManager(activity)), old(reviewInfo))
    {
      currentActivity := Some(WeakRef(Some(activity)));
      manager := Some(RealManager(activity));
    }

    method OnDetachedFromActivityForConfigChanges()
      modifies this
      ensures State() == PluginState(None, None, old(reviewInfo))
    {
      OnDetachedFromActivity();
    }

    method OnReattachedToActivityForConfigChanges(activity: Activity)
      modifies this
      ensures State() == PluginState(Some(WeakRef(Some(activity))), Some(RealManager(activity)), old(reviewInfo))
    {
      OnAttachedToActivity(activity);
    }

    method OnDetachedFromActivity()
      modifies this
      ensures State() == PluginState(None, None, old(reviewInfo))
    {
      currentActivity := None;
      manager := None;
    }
  }
}
