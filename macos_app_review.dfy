/**
 * The macOS review plugin. There is no scene-scoped tier: SwiftUI from macOS 14, the global
 * StoreKit call from macOS 10.14. Store pages open through `NSWorkspace.open`, which answers at
 * once; the lookup is the shared one.
 */
module MacosAppReview {
  import opened Wrappers
  import opened AppleReview

  /** An application window; the SwiftUI host view goes into its content view, if it has one. */
  datatype MacWindow = MacWindow(hasContentView: bool)

  /** The prerequisite of each tier on macOS. */
  predicate Capable(t: Tier, v: OsVersion) {
    match t
    case SwiftUIAction => AtLeast(v, 14, 0)
    case SceneScopedPrompt => false
    case GlobalPrompt => AtLeast(v, 10, 14)
    case Unavailable => true
  }

  /** The tier `requestReview` commits to: the most preferred one whose prerequisite holds. */
  function SelectTier(v: OsVersion): (t: Tier)
    ensures Capable(t, v)
    ensures forall u :: Capable(u, v) ==> Rank(t) <= Rank(u)
    ensures t != SceneScopedPrompt
  {
    if AtLeast(v, 14, 0) then SwiftUIAction
    else if AtLeast(v, 10, 14) then GlobalPrompt
    else Unavailable
  }

  /**
   * `requestReview`. The SwiftUI tier attaches its host view to the first window's content view
   * and completes with success even when the application has no window.
   */
  function RequestReview(testMode: bool, v: OsVersion, windows: seq<MacWindow>): (r: ReviewRequest)
    ensures r.tier == SelectTier(v)
    ensures r.reply.Success? && r.reply.value.Some?
    ensures r.reply == Success(Some(TierReply(r.tier)))
    ensures r.hostViewAttached <==> r.tier == SwiftUIAction && |windows| > 0 && windows[0].hasContentView
  {
    var tier := SelectTier(v);
    var attached := tier == SwiftUIAction && |windows| > 0 && windows[0].hasContentView;
    ReviewRequest(tier, attached, Success(Some(TierReply(tier))))
  }

  /** `isRequestReviewAvailable`: the review API exists from macOS 10.14 on. */
  function IsRequestReviewAvailable(v: OsVersion): (r: Result<bool, AppleError>)
    ensures r.Success?
    ensures r.value <==> SelectTier(v) != Unavailable
  {
    Success(AtLeast(v, 10, 14))
  }

  /** Availability and the "not available" completion of `requestReview` agree. */
  lemma AvailableIffRequestAnswersRequested(testMode: bool, v: OsVersion, windows: seq<MacWindow>)
    ensures IsRequestReviewAvailable(v).value <==> RequestReview(testMode, v, windows).reply != Success(Some(NOT_AVAILABLE))
  {
  }

  /** `getBundleId`: the main bundle's identifier, or "" when it has none. */
  function GetBundleId(bundleIdentifier: Option<string>): (r: Result<string, AppleError>)
    ensures r.Success?
    ensures bundleIdentifier.Some? ==> r.value == bundleIdentifier.value
    ensures bundleIdentifier.None? ==> r.value == ""
  {
    Success(bundleIdentifier.GetOr(""))
  }

  /** `openStoreListing` with `NSWorkspace.open` reporting whether the URL opened. */
  function OpenStoreListing(storeId: Option<string>, urlParses: string -> bool, workspaceOpen: string -> bool): (run: OpenRun)
    ensures run.reply == Failure(AppReviewError(404, "Store ID is missing")) <==> storeId.None? || storeId == Some("")
    ensures run.openedUrl.Some? ==>
      storeId.Some? && run.openedUrl.value == "https://apps.apple.com/app/id" + storeId.value
    ensures run.reply == Failure(AppReviewError(500, "Failed to open store listing")) <==>
      run.openedUrl.Some? && !workspaceOpen(run.openedUrl.value)
    ensures storeId.Some? && storeId.value != "" && !urlParses("https://apps.apple.com/app/id" + storeId.value) ==>
      run == OpenRun(None, Failure(AppReviewError(400, "Invalid Store URL")))
    ensures storeId.Some? && storeId.value != "" && urlParses("https://apps.apple.com/app/id" + storeId.value) ==>
      run.openedUrl == Some("https://apps.apple.com/app/id" + storeId.value) && (run.reply == Success(()) <==> workspaceOpen("https://apps.apple.com/app/id" + storeId.value))
  {
    OpenStorePage(Listing, storeId, urlParses, workspaceOpen)
  }

  /** `openAppStoreReview`: the same guards, on the write-review page. */
  function OpenAppStoreReview(storeId: Option<string>, urlParses: string -> bool, workspaceOpen: string -> bool): (run: OpenRun)
    ensures run.reply == Failure(AppReviewError(404, "Store ID is missing")) <==> storeId.None? || storeId == Some("")
    ensures run.openedUrl.Some? ==>
      storeId.Some? && run.openedUrl.value == "https://apps.apple.com/app/id" + storeId.value + "?action=write-review"
    ensures run.reply == Failure(AppReviewError(500, "Failed to open App Store review")) <==>
      run.openedUrl.Some? && !workspaceOpen(run.openedUrl.value)
    ensures storeId.Some? && storeId.value != "" && !urlParses("https://apps.apple.com/app/id" + storeId.value + "?action=write-review") ==>
      run == OpenRun(None, Failure(AppReviewError(400, "Invalid Store URL")))
    ensures storeId.Some? && storeId.value != "" && urlParses("https://apps.apple.com/app/id" + storeId.value + "?action=write-review") ==>
      run.openedUrl == Some("https://apps.apple.com/app/id" + storeId.value + "?action=write-review") && (run.reply == Success(()) <==> workspaceOpen("https://apps.apple.com/app/id" + storeId.value + "?action=write-review"))
  {
    OpenStorePage(WriteReview, storeId, urlParses, workspaceOpen)
  }
}
