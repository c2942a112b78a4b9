/**
 * includes/core/validator.php: the URL, e-mail and webhook-URL validators, each a chain
 * of guards tried in a fixed order, and the settings sanitiser.
 */
module Validator {
  import opened Wrappers
  import opened Text
  import opened Platform
  import opened Helpers
  import C = Constants

  // ---------------------------------------------------------------------------
  // Host name grammar (the pattern at includes/core/validator.php:57)
  // ---------------------------------------------------------------------------

  /** One label: 1 to 63 letters, digits or hyphens, starting and ending with a letter or digit. */
  predicate IsLabel(l: string) {
    1 <= |l| <= 63 && IsAlnum(l[0]) && IsAlnum(l[|l| - 1]) &&
    forall i :: 0 <= i < |l| ==> IsAlnum(l[i]) || l[i] == '-'
  }

  /** Index of the first '.' in `h`, or `|h|` when there is none. */
  function DotIndex(h: string): (k: nat)
    ensures k <= |h|
    ensures k < |h| ==> h[k] == '.'
    ensures forall i :: 0 <= i < k ==> h[i] != '.'
  {
    if h == [] || h[0] == '.' then 0 else 1 + DotIndex(h[1..])
  }

  /** Dot-separated labels: `label(.label)*`. */
  predicate HostGrammar(h: string)
    decreases |h|
  {
    var k := DotIndex(h);
    IsLabel(h[..k]) && (k == |h| || HostGrammar(h[k + 1..]))
  }

  /**
   * What `preg_match` accepts for the host: the grammar, where PCRE's `$` (without the
   * D modifier) also lets one trailing newline through.
   */
  predicate HostPattern(h: string) {
    HostGrammar(h) || (|h| > 0 && h[|h| - 1] == '\n' && HostGrammar(h[..|h| - 1]))
  }

  /** A host in the grammar is non-empty, made of letters, digits, hyphens and dots, and begins and ends with a letter or digit; no dot is next to another dot or a hyphen. */
  lemma {:induction false} HostGrammarShape(h: string)
    requires HostGrammar(h)
    ensures |h| > 0 && IsAlnum(h[0]) && IsAlnum(h[|h| - 1])
    ensures forall i :: 0 <= i < |h| ==> IsAlnum(h[i]) || h[i] == '-' || h[i] == '.'
    ensures forall i :: 0 <= i < |h| && h[i] == '.' ==> 0 < i < |h| - 1 && IsAlnum(h[i - 1]) && IsAlnum(h[i + 1])
    decreases |h|
  {
    var k := DotIndex(h);
    var l := h[..k];
    assert forall i :: 0 <= i < k ==> h[i] == l[i];
    if k < |h| {
      var rest := h[k + 1..];
      HostGrammarShape(rest);
      assert forall i :: k < i < |h| ==> h[i] == rest[i - k - 1];
      forall i | 0 <= i < |h| && h[i] == '.'
        ensures 0 < i < |h| - 1 && IsAlnum(h[i - 1]) && IsAlnum(h[i + 1])
      {
        if i > k {
          assert rest[i - k - 1] == '.';
        }
      }
    }
  }

  /** Putting a label in front of a host, with a dot between, stays in the grammar. */
  lemma HostGrammarCons(lab: string, rest: string)
    requires IsLabel(lab) && HostGrammar(rest)
    ensures HostGrammar(lab + "." + rest)
  {
    var h := lab + "." + rest;
    assert h == lab + ("." + rest);
    DotIndexOfLabel(lab, "." + rest);
    assert h[..|lab|] == lab;
    assert h[|lab| + 1..] == rest;
  }

  /** A label on its own is a host in the grammar. */
  lemma HostGrammarLabel(lab: string)
    requires IsLabel(lab)
    ensures HostGrammar(lab)
  {
    DotIndexOfLabel(lab, "");
    assert lab + "" == lab;
  }

  lemma {:induction false} DotIndexOfLabel(lab: string, tail: string)
    requires forall i :: 0 <= i < |lab| ==> lab[i] != '.'
    requires tail == [] || tail[0] == '.'
    ensures DotIndex(lab + tail) == |lab|
    decreases |lab|
  {
    if lab != [] {
      assert (lab + tail)[1..] == lab[1..] + tail;
      DotIndexOfLabel(lab[1..], tail);
    }
  }

  /** Four labels joined by dots, the shape of a dotted IPv4 address, are in the grammar. */
  lemma FourLabels(a: string, b: string, c: string, d: string)
    requires IsLabel(a) && IsLabel(b) && IsLabel(c) && IsLabel(d)
    ensures HostGrammar(a + "." + (b + "." + (c + "." + d)))
  {
    HostGrammarLabel(d);
    HostGrammarCons(c, d);
    HostGrammarCons(b, c + "." + d);
    HostGrammarCons(a, b + "." + (c + "." + d));
  }

  /**
   * Every blocked host passes the domain pattern, so it is the blocklist guard, not the
   * pattern, that refuses it.
   */
  lemma BlockedHostsPassPattern()
    ensures forall h :: h in C.BlockedHosts ==> HostPattern(h)
  {
    forall h | h in C.BlockedHosts
      ensures HostGrammar(h)
    {
      if h == "localhost" {
        HostGrammarLabel(h);
      } else if h == "127.0.0.1" {
        LoopbackGrammar(h);
      } else {
        UnspecifiedAddressGrammar(h);
      }
    }
  }

  lemma LoopbackGrammar(h: string)
    requires h == "127.0.0.1"
    ensures HostGrammar(h)
  {
    assert h == h[..3] + "." + (h[4..5] + "." + (h[6..7] + "." + h[8..]));
    FourLabels(h[..3], h[4..5], h[6..7], h[8..]);
  }

  lemma UnspecifiedAddressGrammar(h: string)
    requires h == "0.0.0.0"
    ensures HostGrammar(h)
  {
    assert h == h[..1] + "." + (h[2..3] + "." + (h[4..5] + "." + h[6..]));
    FourLabels(h[..1], h[2..3], h[4..5], h[6..]);
  }

  // ---------------------------------------------------------------------------
  // Shared guards
  // ---------------------------------------------------------------------------

  /** `preg_match('/^https?:\/\//i', $s)`. */
  predicate HasHttpScheme(s: string) {
    StartsWith(ToLower(s), C.HttpPrefix) || StartsWith(ToLower(s), C.HttpsPrefix)
  }

  /** A URL `lm_monitor_is_https` accepts (case-sensitive) also passes the case-insensitive scheme check. */
  lemma HttpsUrlPassesSchemeCheck(url: string)
    requires IsHttps(url)
    ensures HasHttpScheme(url)
  {
    var p := C.HttpsPrefix;
    forall i | 0 <= i < |p|
      ensures ToLower(url)[i] == p[i]
    {
      assert url[i] == p[i];
    }
    assert ToLower(url)[..|p|] == p;
  }

  /** The host, lower-cased, is one of localhost, 127.0.0.1 and 0.0.0.0. */
  predicate IsBlockedHost(host: string) {
    ToLower(host) in C.BlockedHosts
  }

  /** An IP literal outside the public unicast ranges. */
  predicate IsPrivateOrReserved(env: Env, host: string) {
    env.isIp(host) && !env.isPublicIp(host)
  }

  // ---------------------------------------------------------------------------
  // lm_monitor_validate_url
  // ---------------------------------------------------------------------------

  datatype UrlError =
    | EmptyUrl | MissingScheme | InvalidCharacters | NoDomain | BadDomainFormat
    | LocalHost | PrivateAddress | AlreadyMonitored | UrlTooLong

  datatype UrlCheck = UrlAccepted(url: string) | UrlRejected(reason: UrlError)

  function ValidateUrl(env: Env, raw: string): (r: UrlCheck)
    ensures r == UrlRejected(EmptyUrl) <==> PhpEmpty(raw)
    ensures r.UrlAccepted? ==>
      && HasHttpScheme(Trim(raw))
      && r.url == env.escUrlRaw(Trim(raw)) && !PhpEmpty(r.url)
      && env.parseHost(r.url).Some?
      && HostPattern(env.parseHost(r.url).value)
      && !IsBlockedHost(env.parseHost(r.url).value)
      && !IsPrivateOrReserved(env, env.parseHost(r.url).value)
      && !env.urlExists(r.url)
      && |r.url| <= C.UrlMaxLength
    ensures r == UrlRejected(UrlTooLong) ==> !env.urlExists(env.escUrlRaw(Trim(raw)))
  {
    if PhpEmpty(raw) then UrlRejected(EmptyUrl)
    else
      var url := Trim(raw);
      if !HasHttpScheme(url) then UrlRejected(MissingScheme)
      else
        var clean := env.escUrlRaw(url);
        if PhpEmpty(clean) then UrlRejected(InvalidCharacters)
        else match env.parseHost(clean)
          case None => UrlRejected(NoDomain)
          case Some(host) =>
            if !HostPattern(host) then UrlRejected(BadDomainFormat)
            else if IsBlockedHost(host) then UrlRejected(LocalHost)
            else if IsPrivateOrReserved(env, host) then UrlRejected(PrivateAddress)
            else if env.urlExists(clean) then UrlRejected(AlreadyMonitored)
            else if |clean| > C.UrlMaxLength then UrlRejected(UrlTooLong)
            else UrlAccepted(clean)
  }

  /** Conversely, input that passes every guard is accepted, as its sanitised form. */
  lemma ValidateUrlComplete(env: Env, raw: string)
    requires !PhpEmpty(raw) && HasHttpScheme(Trim(raw))
    requires !PhpEmpty(env.escUrlRaw(Trim(raw)))
    requires env.parseHost(env.escUrlRaw(Trim(raw))).Some?
    requires HostPattern(env.parseHost(env.escUrlRaw(Trim(raw))).value)
    requires !IsBlockedHost(env.parseHost(env.escUrlRaw(Trim(raw))).value)
    requires !IsPrivateOrReserved(env, env.parseHost(env.escUrlRaw(Trim(raw))).value)
    requires !env.urlExists(env.escUrlRaw(Trim(raw)))
    requires |env.escUrlRaw(Trim(raw))| <= C.UrlMaxLength
    ensures ValidateUrl(env, raw) == UrlAccepted(env.escUrlRaw(Trim(raw)))
  {
  }

  /** A URL already monitored is reported as a duplicate even when it is also too long. */
  lemma DuplicateReportedBeforeLength(env: Env, raw: string)
    requires !PhpEmpty(raw) && HasHttpScheme(Trim(raw))
    requires !PhpEmpty(env.escUrlRaw(Trim(raw)))
    requires env.parseHost(env.escUrlRaw(Trim(raw))).Some?
    requires HostPattern(env.parseHost(env.escUrlRaw(Trim(raw))).value)
    requires !IsBlockedHost(env.parseHost(env.escUrlRaw(Trim(raw))).value)
    requires !IsPrivateOrReserved(env, env.parseHost(env.escUrlRaw(Trim(raw))).value)
    requires env.urlExists(env.escUrlRaw(Trim(raw)))
    ensures ValidateUrl(env, raw) == UrlRejected(AlreadyMonitored)
  {
  }

  /** A blocked host is refused as local, whatever the IP oracles say about it. */
  lemma BlockedHostRefused(env: Env, raw: string)
    requires !PhpEmpty(raw) && HasHttpScheme(Trim(raw))
    requires !PhpEmpty(env.escUrlRaw(Trim(raw)))
    requires env.parseHost(env.escUrlRaw(Trim(raw))).Some?
    requires HostPattern(env.parseHost(env.escUrlRaw(Trim(raw))).value)
    requires IsBlockedHost(env.parseHost(env.escUrlRaw(Trim(raw))).value)
    ensures ValidateUrl(env, raw) == UrlRejected(LocalHost)
  {
  }

  /** The shape of a domain name: non-empty, alphanumeric at both ends, and made of alphanumerics, hyphens and dots. */
  predicate DomainShaped(h: string) {
    |h| > 0 && IsAlnum(h[0]) && IsAlnum(h[|h| - 1]) &&
    forall i :: 0 <= i < |h| ==> IsAlnum(h[i]) || h[i] == '-' || h[i] == '.'
  }

  /** Whatever the input, an accepted URL's host has the shape of a domain name, up to the one trailing newline PCRE's `$` lets through. */
  lemma AcceptedHostShape(env: Env, raw: string)
    requires ValidateUrl(env, raw).UrlAccepted?
    ensures var host := env.parseHost(ValidateUrl(env, raw).url).value;
      DomainShaped(host) || (|host| > 0 && host[|host| - 1] == '\n' && DomainShaped(host[..|host| - 1]))
  {
    PatternHostShape(env.parseHost(ValidateUrl(env, raw).url).value);
  }

  lemma PatternHostShape(host: string)
    requires HostPattern(host)
    ensures DomainShaped(host) || (|host| > 0 && host[|host| - 1] == '\n' && DomainShaped(host[..|host| - 1]))
  {
    if HostGrammar(host) {
      HostGrammarShape(host);
    } else {
      HostGrammarShape(host[..|host| - 1]);
    }
  }

  // ---------------------------------------------------------------------------
  // lm_monitor_validate_email
  // ---------------------------------------------------------------------------

  /** `explode('@', $email)[1]` when it is set: the text between the first '@' and the next one. */
  function DomainPart(email: string): (r: Option<string>)
    ensures r.None? <==> '@' !in email
    ensures r.Some? ==> '@' !in r.value
    ensures r.Some? ==> exists i :: 0 <= i < |email| && email[i] == '@' && '@' !in email[..i] &&
                                    StartsWith(email[i + 1..], r.value)
  {
    var parts := Split(email, '@');
    if |parts| >= 2 then
      var k := IndexOfChar(email, '@');
      assert '@' !in email[..k] by {
        assert forall j :: 0 <= j < k ==> email[..k][j] == email[j];
      }
      assert parts[1] == Split(email[k + 1..], '@')[0];
      Some(parts[1])
    else None
  }

  datatype EmailError = InvalidEmail | EmailTooLong | DisposableEmail

  datatype EmailCheck = EmailAccepted(email: string) | EmailRejected(reason: EmailError)

  function ValidateEmail(env: Env, raw: string): (r: EmailCheck)
    ensures PhpEmpty(raw) ==> r == EmailAccepted("")
    ensures !PhpEmpty(raw) ==> var e := env.sanitizeEmail(Trim(raw));
      && (r == EmailRejected(InvalidEmail) <==> !env.isEmail(e))
      && (r == EmailRejected(EmailTooLong) <==> env.isEmail(e) && |e| > C.EmailMaxLength)
      && (r == EmailRejected(DisposableEmail) <==>
            env.isEmail(e) && |e| <= C.EmailMaxLength &&
            DomainPart(e).Some? && ToLower(DomainPart(e).value) in C.DisposableDomains)
      && (r.EmailAccepted? ==> r.email == e)
  {
    if PhpEmpty(raw) then EmailAccepted("")
    else
      var e := env.sanitizeEmail(Trim(raw));
      if !env.isEmail(e) then EmailRejected(InvalidEmail)
      else if |e| > C.EmailMaxLength then EmailRejected(EmailTooLong)
      else if DomainPart(e).Some? && ToLower(DomainPart(e).value) in C.DisposableDomains then EmailRejected(DisposableEmail)
      else EmailAccepted(e)
  }

  // ---------------------------------------------------------------------------
  // lm_monitor_validate_webhook_url
  // ---------------------------------------------------------------------------

  datatype WebhookError =
    | InvalidWebhook | WebhookScheme | WebhookNoDomain | WebhookLocalHost
    | WebhookPrivateAddress | WebhookTooLong

  /** An accepted webhook URL, with `warning` set when it does not begin with a literal `https://`. */
  datatype WebhookCheck = WebhookAccepted(url: string, warning: bool) | WebhookRejected(reason: WebhookError)

  function ValidateWebhookUrl(env: Env, raw: string): (r: WebhookCheck)
    ensures PhpEmpty(raw) ==> r == WebhookAccepted("", false)
    ensures !PhpEmpty(raw) && r.WebhookAccepted? ==>
      && env.isValidUrl(Trim(raw)) && HasHttpScheme(Trim(raw))
      && env.parseHost(Trim(raw)).Some?
      && !IsBlockedHost(env.parseHost(Trim(raw)).value)
      && !IsPrivateOrReserved(env, env.parseHost(Trim(raw)).value)
      && |Trim(raw)| <= C.WebhookMaxLength
      && r.url == env.escUrlRaw(Trim(raw))
      && (r.warning <==> !StartsWith(Trim(raw), C.HttpsPrefix))
    ensures r == WebhookRejected(InvalidWebhook) <==> !PhpEmpty(raw) && !env.isValidUrl(Trim(raw))
  {
    if PhpEmpty(raw) then WebhookAccepted("", false) else CheckWebhook(env, Trim(raw))
  }

  /** The guards of `lm_monitor_validate_webhook_url`, in order, on the trimmed URL. */
  function CheckWebhook(env: Env, url: string): WebhookCheck {
    if !env.isValidUrl(url) then WebhookRejected(InvalidWebhook)
    else if !HasHttpScheme(url) then WebhookRejected(WebhookScheme)
    else match env.parseHost(url)
      case None => WebhookRejected(WebhookNoDomain)
      case Some(host) =>
        if IsBlockedHost(host) then WebhookRejected(WebhookLocalHost)
        else if IsPrivateOrReserved(env, host) then WebhookRejected(WebhookPrivateAddress)
        else if |url| > C.WebhookMaxLength then WebhookRejected(WebhookTooLong)
        else WebhookAccepted(env.escUrlRaw(url), !StartsWith(url, C.HttpsPrefix))
  }

  /** An acceptable `HTTPS://` (upper case) webhook passes the case-insensitive scheme guard but still carries the warning. */
  lemma UpperCaseHttpsWarns(env: Env, raw: string)
    requires !PhpEmpty(raw) && StartsWith(Trim(raw), "HTTPS://")
    requires ValidateWebhookUrl(env, raw).WebhookAccepted?
    ensures ValidateWebhookUrl(env, raw).warning
  {
    UpperCaseIsNotHttpsPrefix(Trim(raw));
  }

  lemma UpperCaseIsNotHttpsPrefix(url: string)
    requires StartsWith(url, "HTTPS://")
    ensures !StartsWith(url, C.HttpsPrefix)
  {
    assert url[0] == 'H' != C.HttpsPrefix[0];
  }

  /** Input that passes every guard is accepted; so an `http://` webhook is valid, with a warning. */
  lemma ValidateWebhookComplete(env: Env, raw: string)
    requires !PhpEmpty(raw) && env.isValidUrl(Trim(raw)) && HasHttpScheme(Trim(raw))
    requires env.parseHost(Trim(raw)).Some?
    requires !IsBlockedHost(env.parseHost(Trim(raw)).value)
    requires !IsPrivateOrReserved(env, env.parseHost(Trim(raw)).value)
    requires |Trim(raw)| <= C.WebhookMaxLength
    ensures ValidateWebhookUrl(env, raw) ==
      WebhookAccepted(env.escUrlRaw(Trim(raw)), !StartsWith(Trim(raw), C.HttpsPrefix))
  {
    var url := Trim(raw);
    CheckWebhookComplete(env, url);
  }

  lemma CheckWebhookComplete(env: Env, url: string)
    requires env.isValidUrl(url) && HasHttpScheme(url)
    requires env.parseHost(url).Some?
    requires !IsBlockedHost(env.parseHost(url).value)
    requires !IsPrivateOrReserved(env, env.parseHost(url).value)
    requires |url| <= C.WebhookMaxLength
    ensures CheckWebhook(env, url) == WebhookAccepted(env.escUrlRaw(url), !StartsWith(url, C.HttpsPrefix))
  {
  }

  // ---------------------------------------------------------------------------
  // lm_monitor_sanitize_settings
  // ---------------------------------------------------------------------------

  /** PHP `intval` of a stored value. */
  function IntVal(env: Env, v: Value): int {
    match v
    case Null => 0
    case Int(n) => n
    case Str(s) => env.intval(s)
  }

  /** The string PHP sees when a stored value is used as a string. */
  function StrVal(v: Value): string {
    match v
    case Null => ""
    case Int(n) => IntToDecimal(n)
    case Str(s) => s
  }

  /** `max(lo, min(hi, x))`. */
  function Clamp(lo: int, hi: int, x: int): (r: int)
    requires lo <= hi
    ensures lo <= r <= hi
    ensures lo <= x <= hi ==> r == x
    ensures x < lo ==> r == lo
    ensures x > hi ==> r == hi
  {
    if x < lo then lo else if x > hi then hi else x
  }

  /** `isset($settings[$key])`. */
  predicate IsSet(s: Settings, key: string) {
    key in s && s[key] != Null
  }

  /** What an entered webhook URL is saved as: its sanitised form when valid, else "". */
  function SanitizedWebhook(env: Env, v: Value): string {
    match ValidateWebhookUrl(env, StrVal(v))
    case WebhookAccepted(url, _) => url
    case WebhookRejected(_) => ""
  }

  function SanitizeSettings(env: Env, s: Settings): (r: Settings)
    ensures "webhook_url" in r <==> IsSet(s, "webhook_url")
    ensures "check_interval" in r <==> IsSet(s, "check_interval")
    ensures "notification_cooldown" in r <==> IsSet(s, "notification_cooldown")
    ensures forall k :: k in r ==> k == "webhook_url" || k == "check_interval" || k == "notification_cooldown"
    ensures "check_interval" in r ==> r["check_interval"].Int? && 5 <= r["check_interval"].n <= 60
    ensures "notification_cooldown" in r ==> r["notification_cooldown"].Int? && 1 <= r["notification_cooldown"].n <= 168
    ensures "webhook_url" in r ==> r["webhook_url"].Str?
    ensures IsSet(s, "check_interval") ==>
              r["check_interval"] == Int(Clamp(5, 60, IntVal(env, s["check_interval"])))
    ensures IsSet(s, "notification_cooldown") ==>
              r["notification_cooldown"] == Int(Clamp(1, 168, IntVal(env, s["notification_cooldown"])))
    ensures IsSet(s, "webhook_url") && ValidateWebhookUrl(env, StrVal(s["webhook_url"])).WebhookAccepted? ==>
              r["webhook_url"] == Str(ValidateWebhookUrl(env, StrVal(s["webhook_url"])).url)
    ensures "webhook_url" in r && ValidateWebhookUrl(env, StrVal(s["webhook_url"])).WebhookRejected? ==>
              r["webhook_url"] == Str("")
  {
    map k | k in SanitizedKeys && IsSet(s, k) :: SanitizedValue(env, k, s[k])
  }

  /** The settings `lm_monitor_sanitize_settings` looks at. */
  const SanitizedKeys: set<string> := {"webhook_url", "check_interval", "notification_cooldown"}

  /** The saved form of one of those settings. */
  function SanitizedValue(env: Env, key: string, v: Value): Value {
    if key == "webhook_url" then Str(SanitizedWebhook(env, v))
    else if key == "check_interval" then Int(Clamp(5, 60, IntVal(env, v)))
    else Int(Clamp(1, 168, IntVal(env, v)))
  }

  /** Re-validating the saved webhook URL gives it back unchanged (a property of the WordPress sanitisers, not of this code). */
  predicate WebhookStable(env: Env, v: Value) {
    var once := SanitizedWebhook(env, v);
    SanitizedWebhook(env, Str(once)) == once
  }

  /** Sanitising already-sanitised settings changes nothing, given that the webhook sanitisers are themselves stable on this input. */
  lemma SanitizeSettingsIdempotent(env: Env, s: Settings)
    requires IsSet(s, "webhook_url") ==> WebhookStable(env, s["webhook_url"])
    ensures SanitizeSettings(env, SanitizeSettings(env, s)) == SanitizeSettings(env, s)
  {
    var once := SanitizeSettings(env, s);
    var twice := SanitizeSettings(env, once);
    assert twice.Keys == once.Keys;
    forall k | k in once ensures twice[k] == once[k] {
      if k == "webhook_url" {
        assert once[k] == Str(SanitizedWebhook(env, s[k]));
      }
    }
  }

  /** An invalid webhook is saved as "", and "" is a valid (disabled) webhook: no stability assumption is needed then. */
  lemma RejectedWebhookStable(env: Env, v: Value)
    requires ValidateWebhookUrl(env, StrVal(v)).WebhookRejected?
    ensures WebhookStable(env, v)
  {
  }
}
