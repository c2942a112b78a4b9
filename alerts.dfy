/**
 * The stateful half of includes/alerts.php: the two alert handlers, the e-mail and
 * webhook senders and the webhook test. Sent e-mails and webhook requests are appended
 * to `outbox`; the outcome of `wp_mail` and of the webhook request are inputs.
 */
module Alerts {
  import opened Wrappers
  import opened Text
  import opened Platform
  import opened Sites
  import H = Helpers
  import T = Transients
  import opened AlertFormat
  import C = Constants

  datatype Message = Mail(to: string, subject: string, body: string) | Post(url: string, payload: Json)

  /** What `wp_remote_post` came back with. */
  datatype PostResponse = PostFailed(message: string) | PostStatus(code: int)

  datatype TestError = EmptyWebhook | WebhookFailed

  // ---------------------------------------------------------------------------
  // What each operation sends
  // ---------------------------------------------------------------------------

  /** The request `lm_monitor_send_webhook` makes: none for an empty or malformed URL. */
  function WebhookMessages(env: Env, url: string, data: Data, w: Wp): (r: seq<Message>)
    ensures |r| <= 1
    ensures r != [] <==> !PhpEmpty(url) && env.isValidUrl(url)
    ensures r != [] ==> r[0] == Post(url, FormatPayload(url, data, w))
  {
    if PhpEmpty(url) || !env.isValidUrl(url) then [] else [Post(url, FormatPayload(url, data, w))]
  }

  /** When `lm_monitor_send_webhook` reports success. */
  predicate WebhookSucceeds(env: Env, url: string, response: PostResponse) {
    !PhpEmpty(url) && env.isValidUrl(url) && response.PostStatus? && 200 <= response.code < 300
  }

  /** The e-mail `lm_monitor_send_email_alert` sends: none without a usable recipient. */
  function MailMessages(env: Env, site: Site, subject: string, body: string, w: Wp): (r: seq<Message>)
    ensures |r| <= 1
    ensures r != [] <==> H.AlertRecipient(env, site, w.adminEmail).Some?
    ensures r != [] ==> r[0] == Mail(H.AlertRecipient(env, site, w.adminEmail).value, subject, body)
  {
    match H.AlertRecipient(env, site, w.adminEmail)
    case Some(to) => [Mail(to, subject, body)]
    case None => []
  }

  function StatusChangeSubject(env: Env, url: string): string {
    "[LM Monitor] Status Alert: " + H.SiteName(env, url)
  }

  /** Everything a status-change event sends; `site` is the stored site the id names, if any. */
  function StatusChangeMessages(env: Env, w: Wp, id: int, url: string, previous: string, current: string,
                                site: Option<Site>, webhookUrl: string): seq<Message>
  {
    if id == 0 || PhpEmpty(url) || PhpEmpty(current) || site.None? then []
    else
      var severity := StatusSeverity(previous, current);
      MailMessages(env, site.value, StatusChangeSubject(env, url), StatusAlertEmail(site.value, previous, current, severity, w), w)
      + (if PhpEmpty(webhookUrl) then []
         else WebhookMessages(env, webhookUrl, StatusChangeData(id, url, previous, current, severity, w), w))
  }

  /** An alert sends at most a mail to the recipient, first, and a webhook request, last, and the request exactly when the webhook URL is usable. */
  lemma MailThenWebhook(env: Env, site: Site, subject: string, body: string, webhookUrl: string, data: Data, w: Wp)
    ensures var m := MailMessages(env, site, subject, body, w) + (if PhpEmpty(webhookUrl) then [] else WebhookMessages(env, webhookUrl, data, w));
      && |m| <= 2
      && (forall i :: 0 <= i < |m| && m[i].Mail? ==> i == 0 && m[i].to == H.AlertRecipient(env, site, w.adminEmail).value)
      && (forall i :: 0 <= i < |m| && m[i].Post? ==> i == |m| - 1 && m[i].url == webhookUrl && m[i].payload == FormatPayload(webhookUrl, data, w))
      && ((exists i :: 0 <= i < |m| && m[i].Post?) <==> !PhpEmpty(webhookUrl) && env.isValidUrl(webhookUrl))
  {
    var hook := if PhpEmpty(webhookUrl) then [] else WebhookMessages(env, webhookUrl, data, w);
    var m := MailMessages(env, site, subject, body, w) + hook;
    if hook != [] {
      assert m[|m| - 1] == hook[0];
    }
  }

  /**
   * A status change sends nothing for an empty id, URL or new status or an unknown site;
   * otherwise at most an e-mail to the alert recipient followed by at most one webhook
   * request, which carries the change's severity.
   */
  lemma StatusChangeSends(env: Env, w: Wp, id: int, url: string, previous: string, current: string,
                          site: Option<Site>, webhookUrl: string)
    ensures var m := StatusChangeMessages(env, w, id, url, previous, current, site, webhookUrl);
      && (id == 0 || PhpEmpty(url) || PhpEmpty(current) || site.None? ==> m == [])
      && |m| <= 2
      && (forall i :: 0 <= i < |m| && m[i].Mail? ==> i == 0 && m[i].to == H.AlertRecipient(env, site.value, w.adminEmail).value)
      && (forall i :: 0 <= i < |m| && m[i].Post? ==>
            i == |m| - 1 && m[i].url == webhookUrl &&
            m[i].payload == FormatPayload(webhookUrl, StatusChangeData(id, url, previous, current, StatusSeverity(previous, current), w), w))
      && ((exists i :: 0 <= i < |m| && m[i].Post?) <==>
            id != 0 && !PhpEmpty(url) && !PhpEmpty(current) && site.Some? && !PhpEmpty(webhookUrl) && env.isValidUrl(webhookUrl))
  {
    if !(id == 0 || PhpEmpty(url) || PhpEmpty(current) || site.None?) {
      var severity := StatusSeverity(previous, current);
      MailThenWebhook(env, site.value, StatusChangeSubject(env, url), StatusAlertEmail(site.value, previous, current, severity, w),
                      webhookUrl, StatusChangeData(id, url, previous, current, severity, w), w);
    }
  }

  /** The per-site marker that holds back repeated certificate alerts. */
  function SslMarker(id: int): (k: string)
    ensures StartsWith(k, "ssl_warning_")
  {
    "ssl_warning_" + IntToDecimal(id)
  }

  /** Distinct sites never share a marker. */
  lemma SslMarkerInjective(a: int, b: int)
    ensures SslMarker(a) == SslMarker(b) ==> a == b
  {
    if SslMarker(a) == SslMarker(b) {
      assert IntToDecimal(a) == SslMarker(a)[12..];
      IntToDecimalInjective(a, b);
    }
  }

  /** A certificate alert for this site was sent within the last day. */
  predicate SslSuppressed(store: T.Store, id: int, now: int) {
    var v := T.Get(store, SslMarker(id), now);
    v.Some? && T.Truthy(v.value)
  }

  /** The certificate handler gets past its input, site and marker checks; `days` is None when not numeric. */
  predicate SslSends(id: int, url: string, days: Option<int>, site: Option<Site>, store: T.Store, now: int) {
    id != 0 && !PhpEmpty(url) && days.Some? && site.Some? && !SslSuppressed(store, id, now)
  }

  function SslSubject(env: Env, url: string, urgency: Severity): string {
    "[LM Monitor] " + SeverityName(urgency) + ": SSL Certificate Expiring - " + H.SiteName(env, url)
  }

  /** The mail and webhook request of a certificate alert that goes out. */
  function SslAlertMessages(env: Env, w: Wp, id: int, url: string, days: int, site: Site, webhookUrl: string): seq<Message>
  {
    var urgency := SslAlertUrgency(days);
    MailMessages(env, site, SslSubject(env, url, urgency), SslAlertEmail(site, url, days, urgency, w), w)
    + (if PhpEmpty(webhookUrl) then []
       else WebhookMessages(env, webhookUrl, SslExpiringData(id, url, days, site, urgency, w), w))
  }

  /** Everything a certificate-expiry event sends. */
  function SslMessages(env: Env, w: Wp, id: int, url: string, days: Option<int>, site: Option<Site>,
                       webhookUrl: string, store: T.Store, now: int): seq<Message>
  {
    if !SslSends(id, url, days, site, store, now) then []
    else SslAlertMessages(env, w, id, url, days.value, site.value, webhookUrl)
  }

  /** The marker store after a certificate-expiry event: the marker is set for a day exactly when the alerts went out. */
  function SslStoreAfter(id: int, url: string, days: Option<int>, site: Option<Site>, store: T.Store, now: int): T.Store {
    if SslSends(id, url, days, site, store, now) then T.Set(store, SslMarker(id), T.Flag, C.DayInSeconds, now) else store
  }

  /**
   * Once a certificate alert has gone out, every later event for the same site within a
   * day sends nothing and leaves the store as it is; a day and a second later it is sent again.
   */
  lemma SslAlertAtMostDaily(env: Env, w: Wp, id: int, url: string, days: Option<int>, site: Option<Site>,
                            webhookUrl: string, store: T.Store, now: int, later: int)
    requires SslSends(id, url, days, site, store, now)
    requires now <= later
    ensures var after := SslStoreAfter(id, url, days, site, store, now);
      later <= now + C.DayInSeconds ==>
        SslMessages(env, w, id, url, days, site, webhookUrl, after, later) == [] &&
        SslStoreAfter(id, url, days, site, after, later) == after
    ensures var after := SslStoreAfter(id, url, days, site, store, now);
      later > now + C.DayInSeconds ==> SslSends(id, url, days, site, after, later)
  {
    T.GetAfterSet(store, SslMarker(id), T.Flag, C.DayInSeconds, now, later);
  }

  /** A certificate alert for one site never holds back another site's. */
  lemma SslMarkersIndependent(id: int, other: int, url: string, days: Option<int>, site: Option<Site>,
                              store: T.Store, now: int, t: int)
    requires id != other
    ensures SslSuppressed(SslStoreAfter(id, url, days, site, store, now), other, t) == SslSuppressed(store, other, t)
  {
    SslMarkerInjective(id, other);
    T.OtherKeysUntouched(store, SslMarker(id), SslMarker(other), T.Flag, C.DayInSeconds, now, t);
  }

  // ---------------------------------------------------------------------------
  // The dispatcher
  // ---------------------------------------------------------------------------

  class Dispatcher {
    var transients: T.Store
    var outbox: seq<Message>

    constructor(store: T.Store)
      ensures transients == store && outbox == []
    {
      transients := store;
      outbox := [];
    }

    /** `lm_monitor_send_email_alert`; `delivered` is what `wp_mail` reports. */
    method SendEmailAlert(env: Env, site: Site, subject: string, body: string, w: Wp, delivered: bool) returns (sent: bool)
      modifies this`outbox
      ensures outbox == old(outbox) + MailMessages(env, site, subject, body, w)
      ensures sent <==> H.AlertRecipient(env, site, w.adminEmail).Some? && delivered
    {
      var to := H.AlertRecipient(env, site, w.adminEmail);
      if to.None? {
        return false;
      }
      outbox := outbox + [Mail(to.value, subject, body)];
      sent := delivered;
    }

    /** `lm_monitor_send_webhook`. */
    method SendWebhook(env: Env, url: string, data: Data, w: Wp, response: PostResponse) returns (ok: bool)
      modifies this`outbox
      ensures outbox == old(outbox) + WebhookMessages(env, url, data, w)
      ensures ok <==> WebhookSucceeds(env, url, response)
    {
      if PhpEmpty(url) || !env.isValidUrl(url) {
        return false;
      }
      outbox := outbox + [Post(url, FormatPayload(url, data, w))];
      match response
      case PostFailed(_) => ok := false;
      case PostStatus(code) => ok := 200 <= code < 300;
    }

    /** `lm_monitor_handle_status_change`. */
    method HandleStatusChange(env: Env, w: Wp, id: int, url: string, previous: string, current: string,
                              site: Option<Site>, webhookUrl: string, delivered: bool, response: PostResponse)
      modifies this`outbox
      ensures outbox == old(outbox) + StatusChangeMessages(env, w, id, url, previous, current, site, webhookUrl)
    {
      if id == 0 || PhpEmpty(url) || PhpEmpty(current) {
        return;
      }
      if site.None? {
        return;
      }
      var severity := StatusSeverity(previous, current);
      var body := StatusAlertEmail(site.value, previous, current, severity, w);
      var emailSent := SendEmailAlert(env, site.value, StatusChangeSubject(env, url), body, w, delivered);
      var webhookSent := false;
      if !PhpEmpty(webhookUrl) {
        webhookSent := SendWebhook(env, webhookUrl, StatusChangeData(id, url, previous, current, severity, w), w, response);
      }
    }

    /** `lm_monitor_handle_ssl_expiring`; `days` is None when the value given is not numeric. */
    method HandleSslExpiring(env: Env, w: Wp, id: int, url: string, days: Option<int>, site: Option<Site>,
                             webhookUrl: string, delivered: bool, response: PostResponse, now: int)
      modifies this`outbox, this`transients
      ensures outbox == old(outbox) + SslMessages(env, w, id, url, days, site, webhookUrl, old(transients), now)
      ensures transients == SslStoreAfter(id, url, days, site, old(transients), now)
    {
      if id == 0 || PhpEmpty(url) || days.None? {
        return;
      }
      if site.None? {
        return;
      }
      var last := T.Get(transients, SslMarker(id), now);
      if last.Some? && T.Truthy(last.value) {
        return;
      }
      ghost var store, sent := transients, outbox;
      assert SslSends(id, url, days, site, store, now);
      SendSslAlert(env, w, id, url, days.value, site.value, webhookUrl, delivered, response);
      assert transients == store;
      transients := T.Set(transients, SslMarker(id), T.Flag, C.DayInSeconds, now);
    }

    /** The sending half of `lm_monitor_handle_ssl_expiring`, once its checks have passed. */
    method SendSslAlert(env: Env, w: Wp, id: int, url: string, days: int, site: Site, webhookUrl: string,
                        delivered: bool, response: PostResponse)
      modifies this`outbox
      ensures outbox == old(outbox) + SslAlertMessages(env, w, id, url, days, site, webhookUrl)
    {
      var urgency := SslAlertUrgency(days);
      var body := SslAlertEmail(site, url, days, urgency, w);
      var emailSent := SendEmailAlert(env, site, SslSubject(env, url, urgency), body, w, delivered);
      var webhookSent := false;
      if !PhpEmpty(webhookUrl) {
        webhookSent := SendWebhook(env, webhookUrl, SslExpiringData(id, url, days, site, urgency, w), w, response);
      }
    }

    /** `lm_monitor_test_webhook`. */
    method TestWebhook(env: Env, w: Wp, url: string, response: PostResponse) returns (r: Result<(), TestError>)
      modifies this`outbox
      ensures r == Err(EmptyWebhook) <==> PhpEmpty(url)
      ensures r.Ok? <==> WebhookSucceeds(env, url, response)
      ensures outbox == old(outbox) + (if PhpEmpty(url) then [] else WebhookMessages(env, url, TestData(w), w))
    {
      if PhpEmpty(url) {
        return Err(EmptyWebhook);
      }
      var ok := SendWebhook(env, url, TestData(w), w, response);
      r := if ok then Ok(()) else Err(WebhookFailed);
    }
  }
}
