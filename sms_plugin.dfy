/**
 * The Android SMS plugin: a chain of capability guards, then an `ACTION_SENDTO` intent whose data
 * is "smsto:" and the recipients joined with ';', carrying the message twice.
 */
module Sms {
  import opened Wrappers

  /** What the package manager resolved the probe intent `smsto:123456` to. */
  datatype ActivityInfo = ActivityInfo(exported: bool)

  /** The attached activity, with what its package manager reports. */
  datatype SmsActivity = SmsActivity(hasTelephony: bool, smsToHandler: Option<ActivityInfo>)

  datatype FlutterError = FlutterError(code: string, message: string, details: string)

  datatype Intent = Intent(action: string, data: string, extras: map<string, string>)

  /** The intent started (with its request code), if any, and the reply. */
  datatype SmsRun = SmsRun(started: Option<(Intent, int)>, reply: Result<string, FlutterError>)

  const ACTION_SENDTO := "android.intent.action.SENDTO"
  const EXTRA_TEXT := "android.intent.extra.TEXT"
  const SMS_BODY := "sms_body"
  const REQUEST_CODE_SEND_SMS := 205
  const SMS_SENT := "SMS Sent!"

  const DEVICE_NOT_CAPABLE := FlutterError(
    "device_not_capable",
    "The current device is not capable of sending text messages.",
    "A device may be unable to send messages if it does not support messaging or if it is not currently configured to send messages. This only applies to the ability to send text messages via iMessage, SMS, and MMS.")

  /** Kotlin's `joinToString(separator)`. */
  function JoinWith(parts: seq<string>, separator: char): (joined: string)
    ensures parts == [] ==> joined == ""
    ensures |parts| >= 1 ==> |parts[0]| <= |joined| && joined[..|parts[0]|] == parts[0]
    ensures |parts| >= 2 ==> separator in joined
  {
    if parts == [] then ""
    else if |parts| == 1 then parts[0]
    else parts[0] + [separator] + JoinWith(parts[1..], separator)
  }

  /** Cuts a string at every separator (the reading direction of `JoinWith`). */
  function SplitOn(s: string, separator: char): (parts: seq<string>)
    ensures |parts| >= 1
  {
    if s == [] then [""]
    else
      var rest := SplitOn(s[1..], separator);
      if s[0] == separator then [""] + rest
      else [[s[0]] + rest[0]] + rest[1..]
  }

  lemma {:induction false} SplitWithoutSeparator(s: string, separator: char)
    requires separator !in s
    ensures SplitOn(s, separator) == [s]
  {
    if s != [] {
      SplitWithoutSeparator(s[1..], separator);
      assert [s[0]] + s[1..] == s;
    }
  }

  lemma {:induction false} SplitAfterPart(part: string, separator: char, rest: string)
    requires separator !in part
    ensures SplitOn(part + [separator] + rest, separator) == [part] + SplitOn(rest, separator)
  {
    if part == [] {
      assert part + [separator] + rest == [separator] + rest;
      assert ([separator] + rest)[1..] == rest;
    } else {
      var whole := part + [separator] + rest;
      assert whole[1..] == part[1..] + [separator] + rest;
      SplitAfterPart(part[1..], separator, rest);
      assert [part[0]] + part[1..] == part;
    }
  }

  /** Joined recipients can be cut apart again into the same recipients, in the same order. */
  lemma {:induction false} JoinSplitRoundTrip(parts: seq<string>, separator: char)
    requires |parts| >= 1
    requires forall i :: 0 <= i < |parts| ==> separator !in parts[i]
    ensures SplitOn(JoinWith(parts, separator), separator) == parts
  {
    if |parts| == 1 {
      SplitWithoutSeparator(parts[0], separator);
    } else {
      JoinSplitRoundTrip(parts[1..], separator);
      SplitAfterPart(parts[0], separator, JoinWith(parts[1..], separator));
    }
  }

  class FlutterSmsPlugin {
    var activity: Option<SmsActivity>

    constructor()
      ensures activity.None?
    {
      activity := None;
    }

    method OnAttachedToActivity(activity: SmsActivity)
      modifies this
      ensures this.activity == Some(activity)
    {
      this.activity := Some(activity);
    }

    method OnReattachedToActivityForConfigChanges(activity: SmsActivity)
      modifies this
      ensures this.activity == Some(activity)
    {
      this.activity := Some(activity);
    }

    method OnDetachedFromActivity()
      modifies this
      ensures activity.None?
    {
      activity := None;
    }

    method OnDetachedFromActivityForConfigChanges()
      modifies this
      ensures activity.None?
    {
      activity := None;
    }

    /**
     * `checkCanSendSms`: an attached activity, the telephony feature, and an exported activity
     * for `smsto:`; failing any one of them is enough to answer false.
     */
    function CheckCanSendSms(): (ok: bool)
      reads this
      ensures activity.None? ==> !ok
      ensures activity.Some? && !activity.value.hasTelephony ==> !ok
      ensures activity.Some? && (activity.value.smsToHandler.None? || !activity.value.smsToHandler.value.exported) ==> !ok
      ensures ok <==> activity.Some? && activity.value.hasTelephony &&
                      activity.value.smsToHandler.Some? && activity.value.smsToHandler.value.exported
    {
      if activity.None? then false
      else if !activity.value.hasTelephony then false
      else if activity.value.smsToHandler.None? || !activity.value.smsToHandler.value.exported then false
      else true
    }

    /** `canSendSms` answers the guard's verdict. */
    function CanSendSms(): (r: Result<bool, FlutterError>)
      reads this
      ensures r.Success? && (r.value <==> CheckCanSendSms())
    {
      Success(CheckCanSendSms())
    }

    /** `sendSms`: refuse on an incapable device; otherwise start the compose intent. */
    function SendSms(message: string, recipients: seq<string>): (run: SmsRun)
      reads this
      ensures !CheckCanSendSms() <==> run == SmsRun(None, Failure(DEVICE_NOT_CAPABLE))
      ensures run.reply.Success? <==> run.started.Some?
      ensures run.reply.Success? ==> run.reply.value == SMS_SENT
      ensures CheckCanSendSms() ==> run.reply == Success(SMS_SENT) && run.started.Some?
      ensures run.started.Some? ==>
        && run.started.value.1 == REQUEST_CODE_SEND_SMS
        && run.started.value.0.action == ACTION_SENDTO
        && run.started.value.0.data == "smsto:" + JoinWith(recipients, ';')
        && run.started.value.0.extras == map[SMS_BODY := message, EXTRA_TEXT := message]
    {
      if !CheckCanSendSms() then SmsRun(None, Failure(DEVICE_NOT_CAPABLE))
      else
        var phones := JoinWith(recipients, ';');
        var intent := Intent(ACTION_SENDTO, "smsto:" + phones, map[SMS_BODY := message, EXTRA_TEXT := message]);
        SmsRun(Some((intent, REQUEST_CODE_SEND_SMS)), Success(SMS_SENT))
    }
  }

  /** The intent's data names every recipient, in the order given. */
  lemma IntentNamesRecipientsInOrder(plugin: FlutterSmsPlugin, message: string, recipients: seq<string>)
    requires plugin.CheckCanSendSms()
    requires |recipients| >= 1
    requires forall i :: 0 <= i < |recipients| ==> ';' !in recipients[i]
    ensures var data := plugin.SendSms(message, recipients).started.value.0.data;
      |data| >= 6 && data[..6] == "smsto:" && SplitOn(data[6..], ';') == recipients
  {
    var data := plugin.SendSms(message, recipients).started.value.0.data;
    assert data[6..] == JoinWith(recipients, ';');
    JoinSplitRoundTrip(recipients, ';');
  }
}
