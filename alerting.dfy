/** The alert manager: cooldown-based suppression over an append-only alert history, and
    fan-out of each alert that is not suppressed to the email, webhook and SMS channels. */
module Alerting {
  import opened Wrappers
  import opened Json
  import Config

  /** What the text of an alert message is formatted from. */
  datatype Message =
    | Text(text: string)
    | ThresholdExceeded(metric: string, value: real, threshold: real)
    | PredictionReached(daysAhead: nat, feature: string, value: real)

  /** The arguments of one `trigger_alert` call; `details` is `Null` when none are given. */
  datatype AlertRequest = AlertRequest(
    alertType: string, resourceId: string, severity: string, message: Message, details: Json)

  /** One entry of `alert_history`; `timestamp` is in seconds. */
  datatype AlertRecord = AlertRecord(
    alertType: string, resourceId: string, severity: string, message: Message, details: Json,
    timestamp: int)

  function RecordOf(req: AlertRequest, now: int): AlertRecord {
    AlertRecord(req.alertType, req.resourceId, req.severity, req.message, req.details, now)
  }

  /** The parts of the alert configuration the manager reads. `smsRecipients` is what the
      loop over `config["sms"]["to_numbers"]` visits: None when that entry is missing or
      is not iterable, so that the loop raises inside its `try`. It is not read while SMS
      is disabled. */
  datatype AlertSettings = AlertSettings(
    cooldownMinutes: real,
    emailEnabled: bool,
    webhookEnabled: bool,
    smsEnabled: bool,
    smsRecipients: Option<seq<Json>>)

  const DefaultCooldownMinutes: real := 15.0

  /** `config[channel]["enabled"]`, read for truthiness; None when the lookup would raise. */
  function ChannelEnabled(cfg: Config.Settings, channel: string): Option<bool> {
    if channel in cfg && cfg[channel].Obj? && "enabled" in cfg[channel].fields
    then Some(Truthy(cfg[channel].fields["enabled"]))
    else None
  }

  /** What `for to_number in value` visits: a list's items, or a string's characters, each
      a one-character string; None for null, booleans and numbers, which are not iterable. */
  function Recipients(value: Json): (r: Option<seq<Json>>)
    requires !value.Obj?
    ensures value.Arr? ==> r == Some(value.items)
    ensures value.Str? ==>
      && r.Some? && |r.value| == |value.s|
      && forall i | 0 <= i < |value.s| :: r.value[i] == Str([value.s[i]])
    ensures r.None? <==> value.Null? || value.Bool? || value.Num?
  {
    match value
    case Arr(items) => Some(items)
    case Str(s) => Some(seq(|s|, i requires 0 <= i < |s| => Str([s[i]])))
    case _ => None
  }

  /** The settings a merged alert configuration yields. None for a configuration the model
      excludes: a channel entry that is not a dict (reading its "enabled" flag raises before
      any `try`), a cooldown that is not a number (comparing it raises once a record for
      the same type and resource exists), and, with SMS enabled, a dict of recipients,
      whose key order the decoded configuration does not keep. */
  function AlertSettingsOf(cfg: Config.Settings): (r: Option<AlertSettings>)
    ensures r.None? <==>
      || ("alert_cooldown_minutes" in cfg && NumberOf(cfg["alert_cooldown_minutes"]).None?)
      || ChannelEnabled(cfg, "email").None? || ChannelEnabled(cfg, "webhook").None?
      || ChannelEnabled(cfg, "sms").None?
      || (&& ChannelEnabled(cfg, "sms") == Some(true)
          && "to_numbers" in cfg["sms"].fields && cfg["sms"].fields["to_numbers"].Obj?)
    ensures r.Some? ==>
      && r.value.cooldownMinutes
           == (if "alert_cooldown_minutes" in cfg then NumberOf(cfg["alert_cooldown_minutes"]).value
               else DefaultCooldownMinutes)
      && ChannelEnabled(cfg, "email") == Some(r.value.emailEnabled)
      && ChannelEnabled(cfg, "webhook") == Some(r.value.webhookEnabled)
      && ChannelEnabled(cfg, "sms") == Some(r.value.smsEnabled)
    ensures r.Some? && r.value.smsEnabled ==>
      var sms := cfg["sms"].fields;
      if "to_numbers" in sms then r.value.smsRecipients == Recipients(sms["to_numbers"])
      else r.value.smsRecipients.None?
  {
    var cooldown :=
      if "alert_cooldown_minutes" in cfg then NumberOf(cfg["alert_cooldown_minutes"])
      else Some(DefaultCooldownMinutes);
    var email := ChannelEnabled(cfg, "email");
    var webhook := ChannelEnabled(cfg, "webhook");
    var sms := ChannelEnabled(cfg, "sms");
    if cooldown.None? || email.None? || webhook.None? || sms.None? then None
    else if !sms.value then
      Some(AlertSettings(cooldown.value, email.value, webhook.value, false, None))
    else if "to_numbers" !in cfg["sms"].fields then
      Some(AlertSettings(cooldown.value, email.value, webhook.value, true, None))
    else
      var numbers := cfg["sms"].fields["to_numbers"];
      if numbers.Obj? then None
      else Some(AlertSettings(cooldown.value, email.value, webhook.value, true, Recipients(numbers)))
  }

  /** Built-in configuration: a 15-minute cooldown and every channel disabled. */
  lemma DefaultAlertSettings()
    ensures AlertSettingsOf(Config.AlertDefaults())
      == Some(AlertSettings(DefaultCooldownMinutes, false, false, false, None))
  {
  }

  // ----- Presentation tables ------------------------------------------------------------

  function LowerChar(c: char): char {
    if 'A' <= c <= 'Z' then (c as int + 32) as char else c
  }

  function UpperChar(c: char): char {
    if 'a' <= c <= 'z' then (c as int - 32) as char else c
  }

  /** `str.lower()` on ASCII letters. */
  function Lower(s: string): (r: string)
    ensures |r| == |s| && forall i | 0 <= i < |s| :: r[i] == LowerChar(s[i])
  {
    seq(|s|, i requires 0 <= i < |s| => LowerChar(s[i]))
  }

  /** `str.upper()` on ASCII letters. */
  function Upper(s: string): (r: string)
    ensures |r| == |s| && forall i | 0 <= i < |s| :: r[i] == UpperChar(s[i])
  {
    seq(|s|, i requires 0 <= i < |s| => UpperChar(s[i]))
  }

  const CriticalPrefix: string := "[严重]"
  const WarningPrefix: string := "[警告]"
  const InfoPrefix: string := "[信息]"
  const NoticePrefix: string := "[通知]"
  const FallbackColor: string := "#439FE0"

  /** The subject prefix for a severity, looked up on its lower-cased form. */
  function SeverityPrefix(severity: string): string {
    var key := Lower(severity);
    if key == "critical" then CriticalPrefix
    else if key == "warning" then WarningPrefix
    else if key == "info" then InfoPrefix
    else NoticePrefix
  }

  /** The colour of the webhook attachment, looked up on the lower-cased severity. */
  function WebhookColor(severity: string): string {
    var key := Lower(severity);
    if key == "critical" then "danger"
    else if key == "warning" then "warning"
    else if key == "info" then "good"
    else FallbackColor
  }

  /** Both lookups ignore case: an upper-cased or lower-cased severity maps to the same
      prefix and colour as the severity itself. */
  lemma {:induction false} PresentationIgnoresCase(severity: string)
    ensures SeverityPrefix(Upper(severity)) == SeverityPrefix(severity)
    ensures WebhookColor(Upper(severity)) == WebhookColor(severity)
    ensures SeverityPrefix(Lower(severity)) == SeverityPrefix(severity)
    ensures WebhookColor(Lower(severity)) == WebhookColor(severity)
  {
    assert Lower(Upper(severity)) == Lower(severity);
    assert Lower(Lower(severity)) == Lower(severity);
  }

  /** The three known severities get three distinct prefixes and colours; every other
      severity gets the fallback, which none of them uses. */
  lemma PresentationTable(severity: string)
    ensures SeverityPrefix(severity) == NoticePrefix
      <==> Lower(severity) !in {"critical", "warning", "info"}
    ensures WebhookColor(severity) == FallbackColor
      <==> Lower(severity) !in {"critical", "warning", "info"}
    ensures SeverityPrefix("CRITICAL") == CriticalPrefix && WebhookColor("Warning") == "warning"
    ensures CriticalPrefix != WarningPrefix && WarningPrefix != InfoPrefix && CriticalPrefix != InfoPrefix
  {
    assert NoticePrefix[1] != CriticalPrefix[1] && NoticePrefix[1] != WarningPrefix[1];
    assert NoticePrefix[1] != InfoPrefix[1];
    assert CriticalPrefix[1] != WarningPrefix[1] && WarningPrefix[1] != InfoPrefix[1];
    assert CriticalPrefix[1] != InfoPrefix[1];
    assert FallbackColor[0] != "danger"[0] && FallbackColor[0] != "warning"[0];
    assert FallbackColor[0] != "good"[0];
    assert Lower("CRITICAL") == "critical";
    assert Lower("Warning") == "warning";
  }

  // ----- Channels -----------------------------------------------------------------------

  /** What each channel is given: the subject prefix, the attachment colour and the record. */
  datatype Payload = Payload(prefix: string, color: string, record: AlertRecord)

  /** The delivery services, as opaque oracles: whether the whole SMTP exchange went
      through; the webhook's HTTP status (None when the request raised); and the SMS API's
      status for one recipient, whatever JSON value it is (None when the request raised). */
  datatype Transport = Transport(
    smtp: Payload -> bool,
    webhook: Payload -> Option<int>,
    sms: (Json, Payload) -> Option<int>)

  /** `send_email_alert`: false without sending when email is disabled. */
  function EmailSent(settings: AlertSettings, transport: Transport, payload: Payload): (sent: bool)
    ensures !settings.emailEnabled ==> !sent
    ensures settings.emailEnabled ==> (sent <==> transport.smtp(payload))
  {
    settings.emailEnabled && transport.smtp(payload)
  }

  /** `send_webhook_alert`: false without posting when disabled; otherwise true exactly for
      a status below 300. */
  function WebhookSent(settings: AlertSettings, transport: Transport, payload: Payload): (sent: bool)
    ensures !settings.webhookEnabled ==> !sent
    ensures settings.webhookEnabled ==>
      (sent <==> transport.webhook(payload).Some? && transport.webhook(payload).value < 300)
  {
    if !settings.webhookEnabled then false
    else match transport.webhook(payload)
      case None => false
      case Some(status) => status < 300
  }

  /** The result `send_sms_alert` reports: enabled, the recipients iterable, and no request
      raised. */
  predicate SmsSent(settings: AlertSettings, transport: Transport, payload: Payload) {
    && settings.smsEnabled
    && settings.smsRecipients.Some?
    && forall i | 0 <= i < |settings.smsRecipients.value| ::
         transport.sms(settings.smsRecipients.value[i], payload).Some?
  }

  /** `send_sms_alert`: one request per recipient; a failing status is only logged, and a
      request that raises, or recipients that cannot be iterated, end the loop and make the
      result false. */
  method SendSmsAlert(settings: AlertSettings, transport: Transport, payload: Payload)
    returns (sent: bool, posts: nat)
    ensures sent == SmsSent(settings, transport, payload)
    ensures !settings.smsEnabled || settings.smsRecipients.None? ==> !sent && posts == 0
    ensures sent ==> posts == |settings.smsRecipients.value|
    ensures settings.smsEnabled && settings.smsRecipients.Some? && !sent ==>
      var numbers := settings.smsRecipients.value;
      && 0 < posts <= |numbers|
      && transport.sms(numbers[posts - 1], payload).None?
      && forall i | 0 <= i < posts - 1 :: transport.sms(numbers[i], payload).Some?
  {
    if !settings.smsEnabled || settings.smsRecipients.None? {
      return false, 0;
    }
    var numbers := settings.smsRecipients.value;
    posts := 0;
    while posts < |numbers|
      invariant 0 <= posts <= |numbers|
      invariant forall i | 0 <= i < posts :: transport.sms(numbers[i], payload).Some?
    {
      var status := transport.sms(numbers[posts], payload);
      posts := posts + 1;
      if status.None? {
        return false, posts;
      }
    }
    sent := true;
  }

  /** What the channels reported for one alert; logged, never returned to the caller. */
  datatype Delivery = Delivery(payload: Payload, email: bool, webhook: bool, sms: bool)

  function PayloadOf(rec: AlertRecord): Payload {
    Payload(SeverityPrefix(rec.severity), WebhookColor(rec.severity), rec)
  }

  function DeliveryOf(settings: AlertSettings, transport: Transport, rec: AlertRecord): Delivery {
    var payload := PayloadOf(rec);
    Delivery(payload, EmailSent(settings, transport, payload), WebhookSent(settings, transport, payload),
      SmsSent(settings, transport, payload))
  }

  // ----- Suppression --------------------------------------------------------------------

  /** A history entry suppresses an alert for the same type and resource while it is
      younger than the cooldown window (strict comparison). */
  predicate Suppresses(r: AlertRecord, alertType: string, resourceId: string, now: int, cooldownMinutes: real) {
    && r.alertType == alertType
    && r.resourceId == resourceId
    && ((now - r.timestamp) as real) < cooldownMinutes * 60.0
  }

  /** `_should_send_alert`: no entry of the history suppresses the alert. */
  predicate ShouldSend(history: seq<AlertRecord>, alertType: string, resourceId: string, now: int, cooldownMinutes: real) {
    forall i | 0 <= i < |history| :: !Suppresses(history[i], alertType, resourceId, now, cooldownMinutes)
  }

  /** The history after one `trigger_alert` call. */
  function Fire(history: seq<AlertRecord>, req: AlertRequest, now: int, cooldownMinutes: real): seq<AlertRecord> {
    if ShouldSend(history, req.alertType, req.resourceId, now, cooldownMinutes)
    then history + [RecordOf(req, now)]
    else history
  }

  /** The history after a series of `trigger_alert` calls made at the same instant. */
  function FireAll(history: seq<AlertRecord>, reqs: seq<AlertRequest>, now: int, cooldownMinutes: real): seq<AlertRecord>
    decreases |reqs|
  {
    if reqs == [] then history
    else Fire(FireAll(history, reqs[..|reqs| - 1], now, cooldownMinutes), reqs[|reqs| - 1], now, cooldownMinutes)
  }

  class AlertManager {
    const settings: AlertSettings
    const transport: Transport
    var history: seq<AlertRecord>

    constructor (settings: AlertSettings, transport: Transport)
      ensures this.settings == settings && this.transport == transport && history == []
    {
      this.settings := settings;
      this.transport := transport;
      history := [];
    }

    /** `_should_send_alert`: scan the history, returning false at the first entry that
        suppresses the alert. */
    method ShouldSendAlert(alertType: string, resourceId: string, now: int) returns (send: bool)
      ensures send == ShouldSend(history, alertType, resourceId, now, settings.cooldownMinutes)
    {
      var cooldownMinutes := settings.cooldownMinutes;
      for i := 0 to |history|
        invariant forall j | 0 <= j < i :: !Suppresses(history[j], alertType, resourceId, now, cooldownMinutes)
      {
        var alert := history[i];
        if alert.alertType == alertType && alert.resourceId == resourceId
          && ((now - alert.timestamp) as real) < cooldownMinutes * 60.0
        {
          return false;
        }
      }
      return true;
    }

    /** `trigger_alert`: a suppressed alert returns false and changes nothing; otherwise the
        record is appended before any channel is tried, and the result is true whatever
        the channels report. */
    method TriggerAlert(req: AlertRequest, now: int) returns (fired: bool, delivery: Option<Delivery>)
      modifies this
      ensures fired == ShouldSend(old(history), req.alertType, req.resourceId, now, settings.cooldownMinutes)
      ensures history == Fire(old(history), req, now, settings.cooldownMinutes)
      ensures fired <==> delivery.Some?
      ensures fired ==> delivery.value == DeliveryOf(settings, transport, RecordOf(req, now))
    {
      fired := ShouldSendAlert(req.alertType, req.resourceId, now);
      if !fired {
        return false, None;
      }
      var record := RecordOf(req, now);
      history := history + [record];
      var payload := Payload(SeverityPrefix(req.severity), WebhookColor(req.severity), record);
      var email := EmailSent(settings, transport, payload);
      var webhook := WebhookSent(settings, transport, payload);
      var sms, _ := SendSmsAlert(settings, transport, payload);
      delivery := Some(Delivery(payload, email, webhook, sms));
    }
  }

  // ----- Properties of suppression ------------------------------------------------------

  /** After an alert fires at `t`, a second alert for the same type and resource at `t2`
      with `t2 - t` inside the window is suppressed and appends nothing. */
  lemma RepeatWithinCooldownSuppressed(
    history: seq<AlertRecord>, first: AlertRequest, second: AlertRequest, t: int, t2: int, cooldownMinutes: real)
    requires ShouldSend(history, first.alertType, first.resourceId, t, cooldownMinutes)
    requires second.alertType == first.alertType && second.resourceId == first.resourceId
    requires ((t2 - t) as real) < cooldownMinutes * 60.0
    ensures var after := Fire(history, first, t, cooldownMinutes);
      && after == history + [RecordOf(first, t)]
      && !ShouldSend(after, second.alertType, second.resourceId, t2, cooldownMinutes)
      && Fire(after, second, t2, cooldownMinutes) == after
  {
    var after := Fire(history, first, t, cooldownMinutes);
    assert Suppresses(after[|history|], second.alertType, second.resourceId, t2, cooldownMinutes);
  }

  /** Entries for another type or resource never suppress. */
  lemma OtherPairsNeverSuppress(
    history: seq<AlertRecord>, r: AlertRecord, alertType: string, resourceId: string, now: int, cooldownMinutes: real)
    requires r.alertType != alertType || r.resourceId != resourceId
    ensures ShouldSend(history + [r], alertType, resourceId, now, cooldownMinutes)
      == ShouldSend(history, alertType, resourceId, now, cooldownMinutes)
  {
    if ShouldSend(history, alertType, resourceId, now, cooldownMinutes) {
      forall i | 0 <= i < |history + [r]|
        ensures !Suppresses((history + [r])[i], alertType, resourceId, now, cooldownMinutes)
      {
        if i < |history| { assert (history + [r])[i] == history[i]; }
      }
    } else {
      var i :| 0 <= i < |history| && Suppresses(history[i], alertType, resourceId, now, cooldownMinutes);
      assert (history + [r])[i] == history[i];
    }
  }

  /** The window is open at its end: an entry exactly `cooldown * 60` seconds old no longer
      suppresses; with the default of 15 minutes that is 900 seconds. */
  lemma WindowEndsAtCooldown(r: AlertRecord, now: int, cooldownMinutes: real)
    ensures ((now - r.timestamp) as real) == cooldownMinutes * 60.0
      ==> !Suppresses(r, r.alertType, r.resourceId, now, cooldownMinutes)
    ensures !Suppresses(r, r.alertType, r.resourceId, r.timestamp + 900, DefaultCooldownMinutes)
    ensures Suppresses(r, r.alertType, r.resourceId, r.timestamp + 899, DefaultCooldownMinutes)
  {
  }

  /** The history only grows at its end, by at most one record per call. */
  lemma {:induction false} FireAllAppendsOnly(history: seq<AlertRecord>, reqs: seq<AlertRequest>, now: int, cooldownMinutes: real)
    ensures var after := FireAll(history, reqs, now, cooldownMinutes);
      |history| <= |after| <= |history| + |reqs| && after[..|history|] == history
    decreases |reqs|
  {
    if reqs != [] {
      FireAllAppendsOnly(history, reqs[..|reqs| - 1], now, cooldownMinutes);
      var mid := FireAll(history, reqs[..|reqs| - 1], now, cooldownMinutes);
      var after := FireAll(history, reqs, now, cooldownMinutes);
      assert after == mid || after == mid + [RecordOf(reqs[|reqs| - 1], now)];
      assert after[..|history|] == mid[..|history|];
    }
  }

  /** Alerts for one type and resource raised at the same instant add at most one record
      when the cooldown is positive: the first that fires suppresses the rest. */
  lemma {:induction false} SamePairFiresAtMostOnce(
    history: seq<AlertRecord>, reqs: seq<AlertRequest>, alertType: string, resourceId: string, now: int, cooldownMinutes: real)
    requires cooldownMinutes > 0.0
    requires forall i | 0 <= i < |reqs| :: reqs[i].alertType == alertType && reqs[i].resourceId == resourceId
    ensures var after := FireAll(history, reqs, now, cooldownMinutes);
      || after == history
      || (&& |after| == |history| + 1 && after[..|history|] == history
          && after[|history|].alertType == alertType && after[|history|].resourceId == resourceId
          && after[|history|].timestamp == now)
    decreases |reqs|
  {
    if reqs != [] {
      var init := reqs[..|reqs| - 1];
      SamePairFiresAtMostOnce(history, init, alertType, resourceId, now, cooldownMinutes);
      var mid := FireAll(history, init, now, cooldownMinutes);
      if mid != history {
        assert Suppresses(mid[|history|], alertType, resourceId, now, cooldownMinutes);
        assert !ShouldSend(mid, alertType, resourceId, now, cooldownMinutes);
      }
    }
  }
}
