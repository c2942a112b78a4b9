/**
 * includes/core/monitor.php: how one probe's outcome becomes a check-result record, the
 * certificate inspection, uptime, and the thresholds behind the dashboard badges.
 * The HTTP request and the TLS handshake are inputs: `HttpOutcome` is what `wp_remote_get`
 * came back with, `TlsOutcome` what the handshake to a given host and port yielded.
 */
module Monitor {
  import opened Wrappers
  import opened Text
  import opened Platform
  import opened Sites
  import opened Helpers
  import C = Constants

  /** The array `lm_monitor_check_website` returns; certificate times are Unix timestamps. */
  datatype CheckResult = CheckResult(
    status: string,
    responseTime: Option<nat>,
    sslExpiryDate: Option<int>,
    sslIssuer: Option<string>,
    sslDaysRemaining: Option<int>,
    errorMessage: Option<string>
  )

  datatype HttpOutcome =
    | TransportError(message: string)  // wp_remote_get returned a WP_Error
    | Response(code: int)              // a response with this status code
    | RequestThrew(message: string)    // an exception escaped the request

  /** Fields of a parsed X.509 certificate that the plugin reads; None where the field is unset. */
  datatype Certificate = Certificate(
    validTo: Option<int>,
    validFrom: Option<int>,
    issuerO: Option<string>,
    issuerCN: Option<string>,
    issuerOU: Option<string>,
    subjectCN: Option<string>
  )

  datatype TlsOutcome =
    | ConnectFailed(message: string)    // stream_socket_client returned false
    | NoPeerCertificate                 // no peer certificate was captured
    | Parsed(cert: Option<Certificate>) // openssl_x509_parse's result; None when it failed
    | HandshakeThrew(message: string)   // a warning turned into an exception

  datatype SslError =
    | NoHost | ConnectionFailed(message: string) | CertificateMissing | InvalidCertificate
    | SslException(message: string)

  datatype SslInfo = SslInfo(expiry: int, issuer: string, daysRemaining: int, validFrom: int, subject: string)

  // ---------------------------------------------------------------------------
  // lm_monitor_get_failed_check_result
  // ---------------------------------------------------------------------------

  function FailedCheckResult(message: string): (r: CheckResult)
    ensures r.status == "DOWN" && r.errorMessage == Some(message)
    ensures r.responseTime.None? && r.sslExpiryDate.None? && r.sslIssuer.None? && r.sslDaysRemaining.None?
  {
    CheckResult("DOWN", None, None, None, None, Some(message))
  }

  // ---------------------------------------------------------------------------
  // lm_monitor_get_ssl_info
  // ---------------------------------------------------------------------------

  /** The port the handshake uses: the URL's port when it is in 1..65535, else 443. */
  function TlsPort(env: Env, url: string): (p: int)
    ensures 1 <= p <= 65535
    ensures env.parsePort(url).None? ==> p == C.SslPort
    ensures env.parsePort(url).Some? && 1 <= env.parsePort(url).value <= 65535 ==> p == env.parsePort(url).value
    ensures env.parsePort(url).Some? && !(1 <= env.parsePort(url).value <= 65535) ==> p == C.SslPort
  {
    var p := match env.parsePort(url) case Some(q) => q case None => C.SslPort;
    if p < 1 || p > 65535 then C.SslPort else p
  }

  /** `floor((validTo - now) / 86400)`. */
  function DaysRemaining(validTo: int, now: int): (d: int)
    ensures d * C.DayInSeconds <= validTo - now < (d + 1) * C.DayInSeconds
    ensures d < 0 <==> validTo < now
  {
    (validTo - now) / C.DayInSeconds
  }

  /** The issuer name before sanitising: O, then CN, then OU, else "Unknown". */
  function IssuerOf(cert: Certificate): (r: string)
    ensures cert.issuerO.Some? ==> r == cert.issuerO.value
    ensures cert.issuerO.None? && cert.issuerCN.Some? ==> r == cert.issuerCN.value
    ensures cert.issuerO.None? && cert.issuerCN.None? && cert.issuerOU.Some? ==> r == cert.issuerOU.value
    ensures cert.issuerO.None? && cert.issuerCN.None? && cert.issuerOU.None? ==> r == "Unknown"
  {
    match (cert.issuerO, cert.issuerCN, cert.issuerOU)
    case (Some(o), _, _) => o
    case (None, Some(cn), _) => cn
    case (None, None, Some(ou)) => ou
    case (None, None, None) => "Unknown"
  }

  /**
   * `connect(host, port)` is the handshake's outcome. A missing validFrom is formatted by
   * `gmdate` as the current time.
   */
  function GetSslInfo(env: Env, url: string, connect: (string, int) -> TlsOutcome, now: int): (r: Result<SslInfo, SslError>)
    ensures env.parseHost(url).None? <==> r == Err(NoHost)
    ensures r.Ok? ==> var host := env.parseHost(url).value;
      match connect(host, TlsPort(env, url))
      case Parsed(Some(cert)) =>
        && cert.validTo.Some?
        && r.value.expiry == cert.validTo.value
        && r.value.daysRemaining == DaysRemaining(cert.validTo.value, now)
        && r.value.issuer == env.sanitizeText(IssuerOf(cert))
        && r.value.subject == (if cert.subjectCN.Some? then cert.subjectCN.value else host)
      case _ => false
    ensures env.parseHost(url).Some? ==> var host := env.parseHost(url).value;
      match connect(host, TlsPort(env, url))
      case ConnectFailed(m) => r == Err(ConnectionFailed(m))
      case NoPeerCertificate => r == Err(CertificateMissing)
      case Parsed(None) => r == Err(InvalidCertificate)
      case Parsed(Some(cert)) => cert.validTo.None? <==> r == Err(InvalidCertificate)
      case HandshakeThrew(m) => r == Err(SslException(m))
  {
    match env.parseHost(url)
    case None => Err(NoHost)
    case Some(host) =>
      match connect(host, TlsPort(env, url))
      case ConnectFailed(m) => Err(ConnectionFailed(m))
      case NoPeerCertificate => Err(CertificateMissing)
      case HandshakeThrew(m) => Err(SslException(m))
      case Parsed(None) => Err(InvalidCertificate)
      case Parsed(Some(cert)) =>
        match cert.validTo
        case None => Err(InvalidCertificate)
        case Some(validTo) =>
          Ok(SslInfo(
            validTo,
            env.sanitizeText(IssuerOf(cert)),
            DaysRemaining(validTo, now),
            match cert.validFrom case Some(f) => f case None => now,
            match cert.subjectCN case Some(cn) => cn case None => host))
  }

  /** A certificate already past its expiry time always reports negative days. */
  lemma ExpiredCertificateNegativeDays(env: Env, url: string, connect: (string, int) -> TlsOutcome, now: int)
    requires GetSslInfo(env, url, connect, now).Ok?
    ensures GetSslInfo(env, url, connect, now).value.daysRemaining < 0 <==>
            GetSslInfo(env, url, connect, now).value.expiry < now
  {
  }

  // ---------------------------------------------------------------------------
  // lm_monitor_check_website
  // ---------------------------------------------------------------------------

  /** The status an HTTP status code maps to. */
  function CodeStatus(code: int): (s: string)
    ensures s == "UP" <==> C.HttpSuccessMin <= code <= C.HttpRedirectMax
    ensures C.HttpClientErrorMin <= code <= C.HttpServerErrorMax ==> s == "ERROR " + IntToDecimal(code)
    ensures !(C.HttpSuccessMin <= code <= C.HttpServerErrorMax) ==> s == "ERROR"
  {
    if C.HttpSuccessMin <= code <= C.HttpSuccessMax then "UP"
    else if C.HttpRedirectMin <= code <= C.HttpRedirectMax then "UP"
    else if C.HttpClientErrorMin <= code <= C.HttpClientErrorMax then "ERROR " + IntToDecimal(code)
    else if C.HttpServerErrorMin <= code <= C.HttpServerErrorMax then "ERROR " + IntToDecimal(code)
    else "ERROR"
  }

  /** The error message an HTTP status code sets; none for a success or a redirect. */
  function CodeError(code: int): (e: Option<string>)
    ensures e.None? <==> CodeStatus(code) == "UP"
    ensures C.HttpClientErrorMin <= code <= C.HttpClientErrorMax ==> e == Some("Client error: " + IntToDecimal(code))
    ensures C.HttpServerErrorMin <= code <= C.HttpServerErrorMax ==> e == Some("Server error: " + IntToDecimal(code))
    ensures !(C.HttpSuccessMin <= code <= C.HttpServerErrorMax) ==> e == Some("Unknown HTTP code: " + IntToDecimal(code))
  {
    if C.HttpSuccessMin <= code <= C.HttpRedirectMax then None
    else if C.HttpClientErrorMin <= code <= C.HttpClientErrorMax then Some("Client error: " + IntToDecimal(code))
    else if C.HttpServerErrorMin <= code <= C.HttpServerErrorMax then Some("Server error: " + IntToDecimal(code))
    else Some("Unknown HTTP code: " + IntToDecimal(code))
  }

  /** The certificate fields copied into the result, for an https URL whose inspection succeeded. */
  function WithSsl(r: CheckResult, env: Env, url: string, connect: (string, int) -> TlsOutcome, now: int): CheckResult {
    if IsHttps(url) then
      match GetSslInfo(env, url, connect, now)
      case Ok(info) => r.(sslExpiryDate := Some(info.expiry), sslIssuer := Some(info.issuer), sslDaysRemaining := Some(info.daysRemaining))
      case Err(_) => r
    else r
  }

  /** `elapsedMs` is the measured duration of the request. */
  function CheckWebsite(env: Env, url: string, http: HttpOutcome, elapsedMs: nat,
                        connect: (string, int) -> TlsOutcome, now: int): (r: CheckResult)
    ensures PhpEmpty(url) || !env.isValidUrl(url) ==> r == FailedCheckResult("Invalid URL")
    ensures !PhpEmpty(url) && env.isValidUrl(url) ==>
      match http
      case TransportError(m) =>
        r == CheckResult("DOWN", Some(elapsedMs), None, None, None, Some(m))
      case RequestThrew(m) =>
        r == CheckResult("DOWN", None, None, None, None, Some(m))
      case Response(code) =>
        && r.status == CodeStatus(code) && r.errorMessage == CodeError(code)
        && r.responseTime == Some(elapsedMs)
        && (r.sslDaysRemaining.Some? <==> IsHttps(url) && GetSslInfo(env, url, connect, now).Ok?)
        && (r.sslDaysRemaining.Some? ==>
              r.sslDaysRemaining.value == GetSslInfo(env, url, connect, now).value.daysRemaining &&
              r.sslIssuer == Some(GetSslInfo(env, url, connect, now).value.issuer) &&
              r.sslExpiryDate == Some(GetSslInfo(env, url, connect, now).value.expiry))
        && (r.sslDaysRemaining.None? ==> r.sslIssuer.None? && r.sslExpiryDate.None?)
  {
    if PhpEmpty(url) || !env.isValidUrl(url) then FailedCheckResult("Invalid URL")
    else
      match http
      case TransportError(m) => CheckResult("DOWN", Some(elapsedMs), None, None, None, Some(m))
      case RequestThrew(m) => CheckResult("DOWN", None, None, None, None, Some(m))
      case Response(code) =>
        WithSsl(CheckResult(CodeStatus(code), Some(elapsedMs), None, None, None, CodeError(code)), env, url, connect, now)
  }

  /** The certificate inspection never changes the status, the timing or the error message. */
  lemma SslNeverChangesStatus(env: Env, url: string, http: HttpOutcome, elapsedMs: nat,
                              c1: (string, int) -> TlsOutcome, c2: (string, int) -> TlsOutcome, t1: int, t2: int)
    ensures var r1 := CheckWebsite(env, url, http, elapsedMs, c1, t1);
            var r2 := CheckWebsite(env, url, http, elapsedMs, c2, t2);
            r1.status == r2.status && r1.responseTime == r2.responseTime && r1.errorMessage == r2.errorMessage
  {
  }

  /** A plain-http URL never carries certificate fields. */
  lemma HttpUrlHasNoSsl(env: Env, url: string, http: HttpOutcome, elapsedMs: nat,
                        connect: (string, int) -> TlsOutcome, now: int)
    requires !IsHttps(url)
    ensures var r := CheckWebsite(env, url, http, elapsedMs, connect, now);
            r.sslExpiryDate.None? && r.sslIssuer.None? && r.sslDaysRemaining.None?
  {
  }

  /** Every status is UP, DOWN or begins with ERROR; so the status colour is never the grey fallback. */
  lemma StatusIsUpDownOrError(env: Env, url: string, http: HttpOutcome, elapsedMs: nat,
                              connect: (string, int) -> TlsOutcome, now: int)
    ensures var s := CheckWebsite(env, url, http, elapsedMs, connect, now).status;
            (s == "UP" || s == "DOWN" || StartsWith(s, "ERROR")) && StatusColor(s) != C.ColorGray
  {
    var s := CheckWebsite(env, url, http, elapsedMs, connect, now).status;
    if s != "UP" && s != "DOWN" {
      assert StartsWith(s, "ERROR");
      StartsWithContains(s, "ERROR");
    }
  }

  /** A status is UP exactly for a 2xx or 3xx response. */
  lemma UpIffSuccessOrRedirect(env: Env, url: string, http: HttpOutcome, elapsedMs: nat,
                               connect: (string, int) -> TlsOutcome, now: int)
    ensures CheckWebsite(env, url, http, elapsedMs, connect, now).status == "UP" <==>
            !PhpEmpty(url) && env.isValidUrl(url) && http.Response? && 200 <= http.code <= 399
  {
  }

  // ---------------------------------------------------------------------------
  // lm_monitor_is_valid_check_result
  // ---------------------------------------------------------------------------

  /** What a check may hand back: not an array, or an array with these keys. */
  datatype ResultValue = NotAnArray | ArrayValue(keys: set<string>)

  const RequiredKeys: seq<string> := ["status", "response_time", "ssl_expiry_date", "ssl_issuer", "ssl_days_remaining"]

  /** The key-by-key search, stopping at the first missing key. */
  function AllKeysPresent(required: seq<string>, keys: set<string>): (b: bool)
    ensures b <==> forall i :: 0 <= i < |required| ==> required[i] in keys
  {
    if required == [] then true
    else if required[0] !in keys then false
    else AllKeysPresent(required[1..], keys)
  }

  function IsValidCheckResult(v: ResultValue): (b: bool)
    ensures b <==> v.ArrayValue? && {"status", "response_time", "ssl_expiry_date", "ssl_issuer", "ssl_days_remaining"} <= v.keys
  {
    match v
    case NotAnArray => false
    case ArrayValue(keys) =>
      assert RequiredKeys[0] == "status" && RequiredKeys[1] == "response_time" && RequiredKeys[2] == "ssl_expiry_date";
      assert RequiredKeys[3] == "ssl_issuer" && RequiredKeys[4] == "ssl_days_remaining";
      AllKeysPresent(RequiredKeys, keys)
  }

  /**
   * The keys of the array a check result is stored as. Every return path of
   * `lm_monitor_check_website` builds the same six-key array, with `null` for the fields
   * it has no value for (the initial array and `lm_monitor_get_failed_check_result`), so
   * the key set does not depend on the field values; the shape check on a real result
   * therefore holds by this construction.
   */
  function ToValue(r: CheckResult): ResultValue {
    ArrayValue({"status", "response_time", "ssl_expiry_date", "ssl_issuer", "ssl_days_remaining", "error_message"})
  }

  /** Every check result passes the shape check. */
  lemma CheckResultsAreValid(env: Env, url: string, http: HttpOutcome, elapsedMs: nat,
                             connect: (string, int) -> TlsOutcome, now: int)
    ensures IsValidCheckResult(ToValue(CheckWebsite(env, url, http, elapsedMs, connect, now)))
  {
  }

  // ---------------------------------------------------------------------------
  // Badge tiers of the render_* functions
  // ---------------------------------------------------------------------------

  datatype StatusBadge = UnknownBadge | UpBadge | DownBadge | ErrorBadge(text: string)

  /** `lm_monitor_render_status`, compared after `sanitize_text_field`. */
  function StatusBadgeOf(env: Env, status: string): (b: StatusBadge)
    ensures b == UnknownBadge <==> PhpEmpty(status)
    ensures !PhpEmpty(status) ==> (b == UpBadge <==> env.sanitizeText(status) == "UP")
    ensures !PhpEmpty(status) ==> (b == DownBadge <==> env.sanitizeText(status) == "DOWN")
    ensures b.ErrorBadge? ==> b.text == env.sanitizeText(status)
  {
    if PhpEmpty(status) then UnknownBadge
    else
      var s := env.sanitizeText(status);
      if s == "UP" then UpBadge else if s == "DOWN" then DownBadge else ErrorBadge(s)
  }

  datatype Badge = Badge(color: string, speed: string)

  /** `lm_monitor_render_response_time`: colour, speed label and the shown milliseconds. */
  function ResponseTimeBadge(responseTime: Option<nat>): (b: Option<(Badge, string)>)
    ensures b.None? <==> responseTime.None?
    ensures b.Some? ==> (b.value.0.color == C.ColorError <==> responseTime.value > C.ResponseVerySlow)
    ensures b.Some? ==> (b.value.0.color == C.ColorWarning <==> C.ResponseFast < responseTime.value <= C.ResponseVerySlow)
    ensures b.Some? ==> (b.value.0.color == C.ColorSuccess <==> responseTime.value <= C.ResponseFast)
    ensures b.Some? ==> (b.value.0.speed == "Fast" <==> b.value.0.color == C.ColorSuccess)
    ensures b.Some? ==> (b.value.0.speed == "Slow" <==> b.value.0.color == C.ColorWarning)
    ensures b.Some? ==> (b.value.0.speed == "Very Slow" <==> b.value.0.color == C.ColorError)
    ensures b.Some? ==> b.value.1 == GroupedDecimal(responseTime.value)
  {
    match responseTime
    case None => None
    case Some(t) =>
      GroupedDecimalValue(t);
      var badge :=
        if t > C.ResponseVerySlow then Badge(C.ColorError, "Very Slow")
        else if t > C.ResponseFast then Badge(C.ColorWarning, "Slow")
        else Badge(C.ColorSuccess, "Fast");
      Some((badge, GroupedDecimal(t)))
  }

  /**
   * The badge and the performance level use different boundaries: the badge's bands
   * are closed at 1000 ms and 5000 ms, the level's are open there.
   */
  lemma BadgeAndLevelBoundaries(t: nat)
    ensures ResponseTimeBadge(Some(t)).value.0.color == C.ColorSuccess <==>
            PerformanceLevelOf(Some(t)) == Fast || t == C.ResponseFast
    ensures ResponseTimeBadge(Some(t)).value.0.color == C.ColorError <==>
            PerformanceLevelOf(Some(t)) == VerySlow && t != C.ResponseVerySlow
    ensures ResponseTimeBadge(Some(1000)).value.0.color == C.ColorSuccess && PerformanceLevelOf(Some(1000)) == Medium
  {
  }

  datatype SslBadge = NoSslBadge | ExpiredBadge | DaysBadge(color: string, icon: string, days: int)

  /** `lm_monitor_render_ssl_expiry`: the tier shown for the days remaining. */
  function SslBadgeOf(days: Option<int>): (b: SslBadge)
    ensures b == NoSslBadge <==> days.None?
    ensures b == ExpiredBadge <==> days.Some? && days.value < 0
    ensures b.DaysBadge? ==> b.days == days.value && b.days >= 0
  {
    match days
    case None => NoSslBadge
    case Some(d) =>
      if d < 0 then ExpiredBadge
      else if d <= C.SslCriticalDays then DaysBadge(C.ColorError, "⚠️ ", d)
      else if d <= C.SslWarningDays then DaysBadge(C.ColorWarning, "⚠ ", d)
      else DaysBadge(C.ColorSuccess, "", d)
  }

  /** The badge agrees with `lm_monitor_get_ssl_urgency` on every input. */
  lemma SslBadgeMatchesUrgency(days: Option<int>)
    ensures SslUrgencyOf(days) == NoCertificate <==> SslBadgeOf(days) == NoSslBadge
    ensures SslUrgencyOf(days) == Expired <==> SslBadgeOf(days) == ExpiredBadge
    ensures SslUrgencyOf(days) == Critical <==> SslBadgeOf(days).DaysBadge? && SslBadgeOf(days).color == C.ColorError
    ensures SslUrgencyOf(days) == Warning <==> SslBadgeOf(days).DaysBadge? && SslBadgeOf(days).color == C.ColorWarning
    ensures SslUrgencyOf(days) == Safe <==> SslBadgeOf(days).DaysBadge? && SslBadgeOf(days).color == C.ColorSuccess
  {
  }

  // ---------------------------------------------------------------------------
  // lm_monitor_calculate_uptime and lm_monitor_render_uptime
  // ---------------------------------------------------------------------------

  /** `round(num / den, 0)` for `den > 0`, halves away from zero as PHP rounds. */
  function RoundDiv(num: int, den: int): (q: int)
    requires den > 0
    ensures 2 * q * den - den <= 2 * num <= 2 * q * den + den
    ensures num >= 0 ==> 2 * num < 2 * q * den + den
    ensures num < 0 ==> 2 * q * den - den < 2 * num
  {
    if num >= 0 then (2 * num + den) / (2 * den) else -((-2 * num + den) / (2 * den))
  }

  lemma MulMonotone(a: int, b: int, k: int)
    requires k >= 0
    ensures a <= b ==> a * k <= b * k
  {
    if a <= b {
      assert b * k - a * k == (b - a) * k;
    }
  }

  /** The quotient is the unique `q` with `q * k <= x < (q + 1) * k`. */
  lemma DivUnique(x: int, k: int, q: int)
    requires k > 0 && q * k <= x < (q + 1) * k
    ensures x / k == q
  {
    var r := x / k;
    assert r * k <= x < (r + 1) * k;
    MulMonotone(q + 1, r, k);
    MulMonotone(r + 1, q, k);
  }

  lemma DivMonotone(x: int, y: int, k: int)
    requires k > 0 && x <= y
    ensures x / k <= y / k
  {
    var qx, qy := x / k, y / k;
    assert qx * k <= x;
    assert y < (qy + 1) * k;
    MulMonotone(qy + 1, qx, k);
  }

  lemma RoundDivMonotone(a: int, b: int, den: int)
    requires den > 0 && a <= b
    ensures RoundDiv(a, den) <= RoundDiv(b, den)
  {
    if a >= 0 {
      DivMonotone(2 * a + den, 2 * b + den, 2 * den);
    } else if b < 0 {
      DivMonotone(-2 * b + den, -2 * a + den, 2 * den);
    }
  }

  /** Uptime in hundredths of a percent: 10000 before any check, else `(checks - downs) / checks` rounded. */
  function UptimeHundredths(site: Option<Site>): (u: int)
    ensures site.None? || site.value.checkCount == 0 ==> u == 10000
    ensures site.Some? && site.value.checkCount > 0 ==>
              var c, d := site.value.checkCount as int, site.value.downCount as int;
              2 * u * c - c <= 2 * (c - d) * 10000 <= 2 * u * c + c
  {
    match site
    case None => 10000
    case Some(s) =>
      if s.checkCount == 0 then 10000
      else RoundDiv((s.checkCount - s.downCount) * 10000, s.checkCount)
  }

  /** Uptime is a percentage whenever the downs do not exceed the checks: 100 with no downs, 0 when every check was down. */
  lemma UptimeBounds(s: Site)
    ensures s.downCount <= s.checkCount ==> 0 <= UptimeHundredths(Some(s)) <= 10000
    ensures s.downCount == 0 ==> UptimeHundredths(Some(s)) == 10000
    ensures 0 < s.checkCount == s.downCount ==> UptimeHundredths(Some(s)) == 0
  {
    var c := s.checkCount as int;
    if c > 0 {
      DivUnique(2 * (c * 10000) + c, 2 * c, 10000);
      assert RoundDiv(c * 10000, c) == 10000;
      DivUnique(c, 2 * c, 0);
      assert RoundDiv(0, c) == 0;
      if s.downCount <= c {
        var up := (c - s.downCount) * 10000;
        MulMonotone(c - s.downCount, c, 10000);
        MulMonotone(0, c - s.downCount, 10000);
        RoundDivMonotone(up, c * 10000, c);
        RoundDivMonotone(0, up, c);
      }
    }
  }

  /** More downs over the same number of checks never raise the uptime. */
  lemma UptimeMonotone(s: Site, downs: nat)
    requires s.downCount <= downs
    ensures UptimeHundredths(Some(s.(downCount := downs))) <= UptimeHundredths(Some(s))
  {
    if s.checkCount > 0 {
      var c := s.checkCount as int;
      MulMonotone(c - downs, c - s.downCount, 10000);
      RoundDivMonotone((c - downs) * 10000, (c - s.downCount) * 10000, c);
    }
  }

  /** `lm_monitor_render_uptime`'s colour. */
  function UptimeColor(hundredths: int): (c: string)
    ensures c == C.ColorSuccess <==> hundredths >= C.UptimeExcellent
    ensures c == "#22c55e" <==> C.UptimeGood <= hundredths < C.UptimeExcellent
    ensures c == C.ColorWarning <==> C.UptimeFair <= hundredths < C.UptimeGood
    ensures c == C.ColorError <==> hundredths < C.UptimeFair
  {
    if hundredths >= C.UptimeExcellent then C.ColorSuccess
    else if hundredths >= C.UptimeGood then "#22c55e"
    else if hundredths >= C.UptimeFair then C.ColorWarning
    else C.ColorError
  }

  // ---------------------------------------------------------------------------
  // lm_monitor_time_ago
  // ---------------------------------------------------------------------------

  datatype Ago = Never | UnknownTime | JustNow | MinutesAgo(n: nat) | HoursAgo(n: nat) | DaysAgo(n: nat)

  /** `parsed` is what `strtotime` made of `datetime` (None when it failed). */
  function TimeAgo(datetime: string, parsed: Option<int>, now: int): (a: Ago)
    ensures a == Never <==> PhpEmpty(datetime)
    ensures a == UnknownTime <==> !PhpEmpty(datetime) && (parsed.None? || parsed.value == 0)
    ensures a == JustNow ==> now - parsed.value < 60
    ensures a.MinutesAgo? ==> 1 <= a.n < 60 && a.n * 60 <= now - parsed.value < (a.n + 1) * 60
    ensures a.HoursAgo? ==> 1 <= a.n < 24 && a.n * 3600 <= now - parsed.value < (a.n + 1) * 3600
    ensures a.DaysAgo? ==> 1 <= a.n && a.n * 86400 <= now - parsed.value < (a.n + 1) * 86400
  {
    if PhpEmpty(datetime) then Never
    else match parsed
      case None => UnknownTime
      case Some(ts) =>
        if ts == 0 then UnknownTime
        else
          var diff := now - ts;
          if diff < 60 then JustNow
          else if diff < 3600 then MinutesAgo(diff / 60)
          else if diff < 86400 then HoursAgo(diff / 3600)
          else DaysAgo(diff / 86400)
  }
}
