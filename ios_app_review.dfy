/**
 * The iOS review plugin. `requestReview` chooses a tier from the OS version and the connected
 * scenes; the store pages and the lookup follow the shared App Store rules, with UIKit's
 * `UIApplication.open` as the opener.
 */
module IosAppReview {
  import opened Wrappers
  import opened AppleReview

  datatype ActivationState = Unattached | ForegroundActive | ForegroundInactive | Background

  datatype Window = Window(isKeyWindow: bool)

  /** A connected scene; `windows` is present exactly when the scene is a `UIWindowScene`. */
  datatype Scene = Scene(activationState: ActivationState, windows: Option<seq<Window>>)

  /** Scene `i` is the first foreground-active one. */
  predicate FirstForeground(scenes: seq<Scene>, i: int)
    requires 0 <= i < |scenes|
  {
    scenes[i].activationState == ForegroundActive &&
    forall j :: 0 <= j < i ==> scenes[j].activationState != ForegroundActive
  }

  /**
   * `connectedScenes.first(where: foregroundActive) as? UIWindowScene`: the windows of the
   * first foreground-active scene, when that scene is a window scene.
   */
  function ForegroundWindowScene(scenes: seq<Scene>): Option<seq<Window>> {
    if scenes == [] then None
    else if scenes[0].activationState == ForegroundActive then scenes[0].windows
    else ForegroundWindowScene(scenes[1..])
  }

  /** The scene found is the first foreground-active one; a later one is never used. */
  lemma {:induction false} ForegroundWindowSceneIsFirst(scenes: seq<Scene>)
    ensures ForegroundWindowScene(scenes).Some? ==>
      exists i :: 0 <= i < |scenes| && FirstForeground(scenes, i) && scenes[i].windows == ForegroundWindowScene(scenes)
    ensures ForegroundWindowScene(scenes).None? ==>
      forall i :: 0 <= i < |scenes| && FirstForeground(scenes, i) ==> scenes[i].windows.None?
  {
    if scenes != [] && scenes[0].activationState != ForegroundActive {
      var rest := scenes[1..];
      ForegroundWindowSceneIsFirst(rest);
      if ForegroundWindowScene(rest).Some? {
        var k :| 0 <= k < |rest| && FirstForeground(rest, k) && rest[k].windows == ForegroundWindowScene(rest);
        assert FirstForeground(scenes, k + 1);
      } else {
        forall i | 0 <= i < |scenes| && FirstForeground(scenes, i)
          ensures scenes[i].windows.None?
        {
          assert i >= 1 && FirstForeground(rest, i - 1);
        }
      }
    } else if scenes != [] {
      assert FirstForeground(scenes, 0);
      forall i | 0 <= i < |scenes| && FirstForeground(scenes, i)
        ensures i == 0
      {
      }
    }
  }

  /** The prerequisite of each tier on iOS. */
  predicate Capable(t: Tier, v: OsVersion, scenes: seq<Scene>) {
    match t
    case SwiftUIAction => AtLeast(v, 16, 0)
    case SceneScopedPrompt => AtLeast(v, 14, 0) && ForegroundWindowScene(scenes).Some?
    case GlobalPrompt => AtLeast(v, 10, 3)
    case Unavailable => true
  }

  /** The tier `requestReview` commits to: the most preferred one whose prerequisite holds. */
  function SelectTier(v: OsVersion, scenes: seq<Scene>): (t: Tier)
    ensures Capable(t, v, scenes)
    ensures forall u :: Capable(u, v, scenes) ==> Rank(t) <= Rank(u)
  {
    if AtLeast(v, 16, 0) then SwiftUIAction
    else if AtLeast(v, 14, 0) then
      (if ForegroundWindowScene(scenes).Some? then SceneScopedPrompt else GlobalPrompt)
    else if AtLeast(v, 10, 3) then GlobalPrompt
    else Unavailable
  }

  /**
   * `requestReview`. The SwiftUI tier attaches its hidden host view only to a key window of the
   * foreground window scene, and completes with success whether or not it found one.
   */
  function RequestReview(testMode: bool, v: OsVersion, scenes: seq<Scene>): (r: ReviewRequest)
    ensures r.tier == SelectTier(v, scenes)
    ensures r.reply.Success? && r.reply.value.Some?
    ensures r.reply == Success(Some(TierReply(r.tier)))
    ensures r.hostViewAttached <==>
      r.tier == SwiftUIAction && ForegroundWindowScene(scenes).Some? &&
      exists i :: 0 <= i < |ForegroundWindowScene(scenes).value| && ForegroundWindowScene(scenes).value[i].isKeyWindow
  {
    var tier := SelectTier(v, scenes);
    var windows := ForegroundWindowScene(scenes);
    var attached := tier == SwiftUIAction && windows.Some? &&
                    exists i :: 0 <= i < |windows.value| && windows.value[i].isKeyWindow;
    ReviewRequest(tier, attached, Success(Some(TierReply(tier))))
  }

  /** `isRequestReviewAvailable`: the review API exists from iOS 10.3 on. */
  function IsRequestReviewAvailable(v: OsVersion): (r: Result<bool, AppleError>)
    ensures r.Success?
    ensures forall scenes :: r.value <==> SelectTier(v, scenes) != Unavailable
  {
    Success(AtLeast(v, 10, 3))
  }

  /** Availability and the "not available" completion of `requestReview` agree. */
  lemma AvailableIffRequestAnswersRequested(testMode: bool, v: OsVersion, scenes: seq<Scene>)
    ensures IsRequestReviewAvailable(v).value <==> RequestReview(testMode, v, scenes).reply != Success(Some(NOT_AVAILABLE))
  {
  }

  /** `getBundleId`: the main bundle's identifier, or "" when it has none. */
  function GetBundleId(bundleIdentifier: Option<string>): (r: Result<string, AppleError>)
    ensures r.Success?
    ensures bundleIdentifier.Some? ==> r.value == bundleIdentifier.value
    ensures bundleIdentifier.None? ==> r.value == ""
  {
    Success(bundleIdentifier.GetOr(""))
  }

  /** `openStoreListing` with `UIApplication.open` reporting whether the URL opened. */
  function OpenStoreListing(storeId: Option<string>, urlParses: string -> bool, uiOpen: string -> bool): (run: OpenRun)
    ensures run.reply == Failure(AppReviewError(404, "Store ID is missing")) <==> storeId.None? || storeId == Some("")
    ensures run.openedUrl.Some? ==> storeId.Some? && run.openedUrl.value == "https://apps.apple.com/app/id" + storeId.value
    ensures run.reply == Failure(AppReviewError(500, "Failed to open store listing")) <==>
      run.openedUrl.Some? && !uiOpen(run.openedUrl.value)
    ensures storeId.Some? && storeId.value != "" && !urlParses("https://apps.apple.com/app/id" + storeId.value) ==>
      run == OpenRun(None, Failure(AppReviewError(400, "Invalid Store URL")))
    ensures storeId.Some? && storeId.value != "" && urlParses("https://apps.apple.com/app/id" + storeId.value) ==>
      run.openedUrl == Some("https://apps.apple.com/app/id" + storeId.value) && (run.reply == Success(()) <==> uiOpen("https://apps.apple.com/app/id" + storeId.value))
  {
    OpenStorePage(Listing, storeId, urlParses, uiOpen)
  }

  /** `openAppStoreReview`: the same guards, on the write-review page. */
  function OpenAppStoreReview(storeId: Option<string>, urlParses: string -> bool, uiOpen: string -> bool): (run: OpenRun)
    ensures run.reply == Failure(AppReviewError(404, "Store ID is missing")) <==> storeId.None? || storeId == Some("")
    ensures run.openedUrl.Some? ==>
      storeId.Some? && run.openedUrl.value == "https://apps.apple.com/app/id" + storeId.value + "?action=write-review"
    ensures run.reply == Failure(AppReviewError(500, "Failed to open App Store review")) <==>
      run.openedUrl.Some? && !uiOpen(run.openedUrl.value)
    ensures storeId.Some? && storeId.value != "" && !urlParses("https://apps.apple.com/app/id" + storeId.value + "?action=write-review") ==>
      run == OpenRun(None, Failure(AppReviewError(400, "Invalid Store URL")))
    ensures storeId.Some? && storeId.value != "" && urlParses("https://apps.apple.com/app/id" + storeId.value + "?action=write-review") ==>
      run.openedUrl == Some("https://apps.apple.com/app/id" + storeId.value + "?action=write-review") && (run.reply == Success(()) <==> uiOpen("https://apps.apple.com/app/id" + storeId.value + "?action=write-review"))
  {
    OpenStorePage(WriteReview, storeId, urlParses, uiOpen)
  }
}
