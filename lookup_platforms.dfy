/**
 * Where the Apple and the Android `lookupAppId` agree and where they part: both answer the
 * first result's `trackId` for an app the directory lists, but only Android looks at the HTTP
 * status, and the two read a missing or mixed `results` array differently.
 */
module LookupPlatforms {
  import opened Wrappers
  import opened Json
  import Decimal
  import Limits
  import Itunes
  import AppleReview
  import AndroidAppReview

  /** A body whose first result is a listed app and whose later results are `others`. */
  function ResultsBody(trackId: int, others: seq<Json>): Json {
    JObject(map["results" := JArray([JObject(map["trackId" := JInt(trackId)])] + others)])
  }

  /** The Apple reply for a body the task delivered without error, with the given status. */
  function AppleReply(body: Json, statusCode: int): Result<Option<string>, AppleReview.AppleError> {
    AppleReview.InterpretCompletion(AppleReview.TaskCompletion(None, Some(Parsed(body)), statusCode))
  }

  /**
   * For a listed app with a 64-bit id and status 200, Apple and the corrected Android reading
   * answer the id in decimal; Android as written (`getInt`) agrees exactly when the id is a
   * 32-bit one.
   */
  lemma PlatformsAgreeOnListedApp(trackId: int)
    requires Limits.INT64_MIN <= trackId <= Limits.INT64_MAX
    ensures AppleReply(ListedAppBody(trackId), 200) == Success(Some(Decimal.IntToDecimal(trackId)))
    ensures AndroidAppReview.InterpretBody(Parsed(ListedAppBody(trackId)))
            == Success(Some(Decimal.IntToDecimal(trackId)))
    ensures Limits.INT32_MIN <= trackId <= Limits.INT32_MAX ==>
      AndroidAppReview.InterpretBodyAsWritten(Parsed(ListedAppBody(trackId)))
      == Success(Some(Decimal.IntToDecimal(trackId)))
    ensures !(Limits.INT32_MIN <= trackId <= Limits.INT32_MAX) ==>
      AndroidAppReview.InterpretBodyAsWritten(Parsed(ListedAppBody(trackId)))
      != Success(Some(Decimal.IntToDecimal(trackId)))
  {
    AppleReview.FirstTrackIdOfListedApp(trackId, map[], []);
    assert map[]["trackId" := JInt(trackId)] == map["trackId" := JInt(trackId)];
    assert [JObject(map["trackId" := JInt(trackId)])] + [] == [JObject(map["trackId" := JInt(trackId)])];
    AndroidAppReview.ListedAppIdIsExact(trackId);
    if !(Limits.INT32_MIN <= trackId <= Limits.INT32_MAX) {
      assert AndroidAppReview.FirstHasTrackId(Parsed(ListedAppBody(trackId)));
      var wrapped := AndroidAppReview.Wrap32(trackId);
      if Decimal.IntToDecimal(wrapped) == Decimal.IntToDecimal(trackId) {
        Decimal.DecimalInjective(wrapped, trackId);
      }
    }
  }

  /**
   * The directory's full answer (with `resultCount` and every other field of each result):
   * whenever `results` is a list of objects whose first holds a 64-bit `trackId`, Apple and the
   * corrected Android reading both answer that id.
   */
  lemma PlatformsAgreeOnDirectoryAnswer(members: map<string, Json>, trackId: int)
    requires Limits.INT64_MIN <= trackId <= Limits.INT64_MAX
    requires "results" in members && members["results"].JArray?
    requires |members["results"].items| > 0 && AllObjects(members["results"].items)
    requires "trackId" in members["results"].items[0].members
    requires members["results"].items[0].members["trackId"] == JInt(trackId)
    ensures AppleReply(JObject(members), 200) == Success(Some(Decimal.IntToDecimal(trackId)))
    ensures AndroidAppReview.InterpretBody(Parsed(JObject(members))) == Success(Some(Decimal.IntToDecimal(trackId)))
  {
    assert IsObject(members["results"].items[0]);
    assert AndroidAppReview.FirstHasTrackId(Parsed(JObject(members)));
  }

  /**
   * A response that is not 200 but carries a listed app's body: Apple still answers the id,
   * Android answers nothing.
   */
  lemma OnlyAndroidReadsStatus(bundleId: string, countryCode: Option<string>, trackId: int, statusCode: int,
                               lines: seq<string>, parse: string -> Body, urlParses: string -> bool)
    requires Limits.INT64_MIN <= trackId <= Limits.INT64_MAX
    requires statusCode != 200
    requires urlParses(Itunes.LookupUrl(bundleId, countryCode))
    ensures AppleReply(ListedAppBody(trackId), statusCode) == Success(Some(Decimal.IntToDecimal(trackId)))
    ensures AndroidAppReview.LookupSpec(bundleId, countryCode, urlParses,
              AndroidAppReview.Responded(statusCode, lines), parse).reply == Success(None)
  {
    PlatformsAgreeOnListedApp(trackId);
    AppleReview.CompletionIgnoresStatus(AppleReview.TaskCompletion(None, Some(Parsed(ListedAppBody(trackId))), 200),
                                        statusCode);
  }

  /** An object without `results`: Apple answers nothing, Android fails. */
  lemma MissingResultsDiffers(members: map<string, Json>)
    requires "results" !in members
    ensures AppleReply(JObject(members), 200) == Success(None)
    ensures AndroidAppReview.InterpretBody(Parsed(JObject(members))) == Failure(AndroidAppReview.JsonFailure)
    ensures AndroidAppReview.InterpretBodyAsWritten(Parsed(JObject(members))) == Failure(AndroidAppReview.JsonFailure)
  {
    AppleReview.FirstTrackIdShapeMismatch(JObject(members));
  }

  /**
   * A `results` array whose first element is a listed app but which also holds a value that is
   * not an object: Swift's cast to an array of dictionaries fails, so Apple answers nothing,
   * while Android reads only the first element and answers its id: exactly with the corrected
   * reading, and narrowed to 32 bits as written.
   */
  lemma MixedResultsDiffer(trackId: int, stray: Json)
    requires Limits.INT64_MIN <= trackId <= Limits.INT64_MAX
    requires !stray.JObject?
    ensures AppleReply(ResultsBody(trackId, [stray]), 200) == Success(None)
    ensures AndroidAppReview.InterpretBody(Parsed(ResultsBody(trackId, [stray])))
            == Success(Some(Decimal.IntToDecimal(trackId)))
    ensures AndroidAppReview.InterpretBodyAsWritten(Parsed(ResultsBody(trackId, [stray])))
            == Success(Some(Decimal.IntToDecimal(AndroidAppReview.Wrap32(trackId))))
  {
    var body := ResultsBody(trackId, [stray]);
    var results := body.members["results"].items;
    assert results[1] == stray;
    assert !AllObjects(results);
    AppleReview.FirstTrackIdShapeMismatch(body);
    assert results[0].members["trackId"] == JInt(trackId);
    var r := AndroidAppReview.InterpretBody(Parsed(body));
    assert r.Success? && r.value.Some?;
    Decimal.DecimalRoundTrip(trackId);
    assert Decimal.ParseDecimal(r.value.value) == Some(trackId);
  }
}
