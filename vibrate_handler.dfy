/**
 * The Android haptics handler: a method name and the device's SDK level decide between a
 * haptic-feedback constant on the activity's window, a vibration, a boolean reply, or
 * "not implemented".
 */
module Vibrate {
  import opened Wrappers
  import opened Limits

  // android.view.HapticFeedbackConstants
  const LONG_PRESS := 0
  const VIRTUAL_KEY := 1
  const KEYBOARD_TAP := 3
  const CLOCK_TICK := 4
  const CONFIRM := 16
  const REJECT := 17

  // android.os.Build.VERSION_CODES and android.os.VibrationEffect
  const VERSION_CODE_O := 26
  const VERSION_CODE_R := 30
  const DEFAULT_AMPLITUDE := -1

  /** Methods that answer with a fixed haptic constant. */
  const FIXED_FEEDBACK: map<string, int> :=
    map["impact" := VIRTUAL_KEY, "selection" := KEYBOARD_TAP, "heavy" := LONG_PRESS,
        "medium" := VIRTUAL_KEY, "light" := CLOCK_TICK]

  /** Notification-style methods: the constant from Android R on, the vibration length before. */
  const NOTIFICATION_FEEDBACK: map<string, (int, int)> :=
    map["success" := (CONFIRM, 50), "warning" := (REJECT, 250), "error" := (REJECT, 500)]

  const RECOGNISED: set<string> := {"canVibrate", "vibrate"} + FIXED_FEEDBACK.Keys + NOTIFICATION_FEEDBACK.Keys

  /** The `duration` argument as the message codec delivers it. */
  datatype Argument = Missing | IntArgument(value: int) | OtherArgument

  datatype MethodCall = MethodCall(name: string, duration: Argument)

  /** What the handler answers on the channel. */
  datatype Reply = ReplySuccess(value: Option<bool>) | NotImplemented | ReplyError(code: string)

  /** What the handler asks the device to do. */
  datatype Effect =
    | NoEffect
    | LegacyVibration(milliseconds: int)             // Vibrator.vibrate(long)
    | OneShotVibration(milliseconds: int, amplitude: int)
    | HapticFeedback(constant: int)                  // View.performHapticFeedback
    | InvalidOneShot                                 // createOneShot refused a duration <= 0

  datatype Dispatch = Dispatch(effect: Effect, reply: Reply)

  datatype Activity = Activity(id: nat)

  class VibrateMethodCallHandler {
    const hasVibrator: bool
    const legacyVibrator: bool
    const sdkInt: int
    var activity: Option<Activity>

    constructor(vibratorHasVibrator: bool, sdkInt: int)
      ensures hasVibrator == vibratorHasVibrator
      ensures legacyVibrator == (sdkInt < VERSION_CODE_O)
      ensures this.sdkInt == sdkInt && activity.None?
    {
      hasVibrator := vibratorHasVibrator;
      legacyVibrator := sdkInt < VERSION_CODE_O;
      this.sdkInt := sdkInt;
      activity := None;
    }

    /** Only the activity changes; the vibrator flags are fixed at construction. */
    method SetActivity(activity: Option<Activity>)
      modifies this
      ensures this.activity == activity
    {
      this.activity := activity;
    }

    /** `vibrate(duration)`: nothing without a vibrator; the millisecond API before Android O. */
    function Vibrate(duration: int): (e: Effect)
      ensures e == NoEffect <==> !hasVibrator
      ensures e.LegacyVibration? <==> hasVibrator && legacyVibrator
      ensures e.LegacyVibration? ==> e.milliseconds == duration
      ensures e.OneShotVibration? ==> e == OneShotVibration(duration, DEFAULT_AMPLITUDE) && duration > 0
      ensures e == InvalidOneShot <==> hasVibrator && !legacyVibrator && duration <= 0
      ensures hasVibrator && !legacyVibrator && duration > 0 ==> e == OneShotVibration(duration, DEFAULT_AMPLITUDE)
    {
      if !hasVibrator then NoEffect
      else if legacyVibrator then LegacyVibration(duration)
      else if duration <= 0 then InvalidOneShot
      else OneShotVibration(duration, DEFAULT_AMPLITUDE)
    }

    /** `feedback(constant)`: haptic feedback on the activity's window, nothing without one. */
    function Feedback(constant: int): (e: Effect)
      reads this
      ensures e == NoEffect <==> activity.None?
      ensures e != NoEffect ==> e == HapticFeedback(constant)
    {
      if activity.None? then NoEffect else HapticFeedback(constant)
    }

    /**
     * `onMethodCall`. A recognised method replies success once, except that a `vibrate` call
     * whose duration is not a 32-bit integer, or that the one-shot API refuses, replies with the
     * channel's error; any other method name is not implemented.
     */
    function OnMethodCall(call: MethodCall): (d: Dispatch)
      reads this
      ensures d.reply == NotImplemented <==> call.name !in RECOGNISED
      ensures d.reply == NotImplemented ==> d.effect == NoEffect
      ensures d.reply.ReplyError? ==> call.name == "vibrate"
      ensures call.name == "canVibrate" ==> d == Dispatch(NoEffect, ReplySuccess(Some(hasVibrator)))
      ensures call.name in FIXED_FEEDBACK ==> d == Dispatch(Feedback(FIXED_FEEDBACK[call.name]), ReplySuccess(None))
      ensures call.name in NOTIFICATION_FEEDBACK ==> d.reply == ReplySuccess(None)
      ensures call.name in NOTIFICATION_FEEDBACK && sdkInt >= VERSION_CODE_R ==>
        d.effect == Feedback(NOTIFICATION_FEEDBACK[call.name].0)
      ensures call.name in NOTIFICATION_FEEDBACK && sdkInt < VERSION_CODE_R ==>
        d.effect == Vibrate(NOTIFICATION_FEEDBACK[call.name].1)
      ensures call.name == "vibrate" && call.duration.IntArgument? && INT32_MIN <= call.duration.value <= INT32_MAX ==>
        d.effect == Vibrate(call.duration.value)
      ensures call.name == "vibrate" && !(call.duration.IntArgument? && INT32_MIN <= call.duration.value <= INT32_MAX) ==>
        d == Dispatch(NoEffect, ReplyError("error"))
      ensures d.effect == InvalidOneShot ==> d.reply == ReplyError("error")
      ensures call.name == "vibrate" ==>
        (d.reply == ReplySuccess(None) <==>
           call.duration.IntArgument? && INT32_MIN <= call.duration.value <= INT32_MAX &&
           Vibrate(call.duration.value) != InvalidOneShot)
    {
      match call.name
      case "canVibrate" => Dispatch(NoEffect, ReplySuccess(Some(hasVibrator)))
      case "vibrate" =>
        if call.duration.IntArgument? && INT32_MIN <= call.duration.value <= INT32_MAX then
          var e := Vibrate(call.duration.value);
          if e == InvalidOneShot then Dispatch(e, ReplyError("error")) else Dispatch(e, ReplySuccess(None))
        else
          Dispatch(NoEffect, ReplyError("error"))
      case "impact" => Dispatch(Feedback(VIRTUAL_KEY), ReplySuccess(None))
      case "selection" => Dispatch(Feedback(KEYBOARD_TAP), ReplySuccess(None))
      case "success" =>
        Dispatch(if sdkInt >= VERSION_CODE_R then Feedback(CONFIRM) else Vibrate(50), ReplySuccess(None))
      case "warning" =>
        Dispatch(if sdkInt >= VERSION_CODE_R then Feedback(REJECT) else Vibrate(250), ReplySuccess(None))
      case "error" =>
        Dispatch(if sdkInt >= VERSION_CODE_R then Feedback(REJECT) else Vibrate(500), ReplySuccess(None))
      case "heavy" => Dispatch(Feedback(LONG_PRESS), ReplySuccess(None))
      case "medium" => Dispatch(Feedback(VIRTUAL_KEY), ReplySuccess(None))
      case "light" => Dispatch(Feedback(CLOCK_TICK), ReplySuccess(None))
      case _ => Dispatch(NoEffect, NotImplemented)
    }
  }

  /** Without an activity, no haptic constant reaches the device, whatever the method. */
  lemma NoActivityNoHaptics(h: VibrateMethodCallHandler, call: MethodCall)
    requires h.activity.None?
    ensures !h.OnMethodCall(call).effect.HapticFeedback?
  {
  }

  /**
   * Below Android R a notification-style method vibrates exactly as a `vibrate` call with its
   * length does, and both succeed.
   */
  lemma NotificationFallbackIsVibrate(h: VibrateMethodCallHandler, name: string, duration: Argument)
    requires name in NOTIFICATION_FEEDBACK && h.sdkInt < VERSION_CODE_R
    ensures var d := h.OnMethodCall(MethodCall(name, duration));
      d == h.OnMethodCall(MethodCall("vibrate", IntArgument(NOTIFICATION_FEEDBACK[name].1)))
  {
    var ms := NOTIFICATION_FEEDBACK[name].1;
    assert ms in {50, 250, 500};
  }

  /** Every effect the handler produces is followed by a success reply, or is the refused one-shot. */
  lemma EffectImpliesReply(h: VibrateMethodCallHandler, call: MethodCall)
    ensures var d := h.OnMethodCall(call);
      d.effect != NoEffect ==> d.reply == ReplySuccess(None) || d.effect == InvalidOneShot
  {
  }
}
