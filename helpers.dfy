/**
 * includes/helpers.php: settings lookup with its in-process cache, the alert recipient,
 * the threshold classifiers and the small key, slug and URL builders.
 */
module Helpers {
  import opened Wrappers
  import opened Text
  import opened Platform
  import opened Sites
  import C = Constants

  /** A stored option value: PHP's null, a string or an integer. */
  datatype Value = Null | Str(s: string) | Int(n: int)

  type Settings = map<string, Value>

  function DefaultSettings(): Settings {
    map[
      "webhook_url" := Str(""),
      "check_interval" := Int(C.DefaultCheckInterval),
      "notification_cooldown" := Int(C.DefaultCooldown),
      "version" := Str(C.Version)
    ]
  }

  /** `wp_parse_args($stored, $defaults)`: stored values win, defaults fill the gaps. */
  function WithDefaults(stored: Settings): (r: Settings)
    ensures r.Keys == stored.Keys + DefaultSettings().Keys
    ensures forall k :: k in stored ==> r[k] == stored[k]
    ensures forall k :: k in DefaultSettings() && k !in stored ==> r[k] == DefaultSettings()[k]
  {
    DefaultSettings() + stored
  }

  /** `isset($settings[$key]) ? $settings[$key] : $default`: a present, non-null value, else the default. */
  function SettingOr(settings: Settings, key: string, default: Value): (v: Value)
    ensures key in settings && settings[key] != Null ==> v == settings[key]
    ensures key !in settings || settings[key] == Null ==> v == default
  {
    if key in settings && settings[key] != Null then settings[key] else default
  }

  /**
   * `lm_monitor_get_settings` with its `static $settings`: the option row is read and
   * overlaid on the defaults on the first call and whenever a refresh is forced; every
   * other call returns the cached array, even after the row has changed.
   */
  class SettingsCache {
    var stored: Settings         // the 'lm_monitor_settings' option row
    var cache: Option<Settings>  // the static variable; None until first use

    constructor (stored: Settings)
      ensures this.stored == stored && cache == None
    {
      this.stored := stored;
      cache := None;
    }

    method GetSettings(forceRefresh: bool) returns (s: Settings)
      modifies this`cache
      ensures old(cache).None? || forceRefresh ==> s == WithDefaults(stored)
      ensures old(cache).Some? && !forceRefresh ==> s == old(cache).value
      ensures cache == Some(s)
    {
      if cache.None? || forceRefresh {
        cache := Some(WithDefaults(stored));
      }
      s := cache.value;
    }

    /** `lm_monitor_get_setting($key, $default)`, read through the cache. */
    method GetSetting(key: string, default: Value) returns (v: Value)
      modifies this`cache
      ensures old(cache).None? ==> v == SettingOr(WithDefaults(stored), key, default)
      ensures old(cache).Some? ==> v == SettingOr(old(cache).value, key, default)
      ensures cache.Some? && v == SettingOr(cache.value, key, default)
    {
      var s := GetSettings(false);
      v := SettingOr(s, key, default);
    }

    /** `update_option('lm_monitor_settings', ...)`: the row changes, the cache does not. */
    method Store(row: Settings)
      modifies this`stored
      ensures stored == row && cache == old(cache)
    {
      stored := row;
    }
  }

  /** A save followed by a forced refresh makes every later read see the saved row. */
  method SaveThenRefresh(c: SettingsCache, row: Settings) returns (s: Settings)
    modifies c
    ensures s == WithDefaults(row) && c.cache == Some(s) && c.stored == row
  {
    c.Store(row);
    s := c.GetSettings(true);
  }

  /** `lm_monitor_get_alert_recipient`: the site's address if usable, else the administrator's, else none. */
  function AlertRecipient(env: Env, site: Site, adminEmail: string): (r: Option<string>)
    ensures r.Some? ==> !PhpEmpty(r.value) && env.isEmail(r.value)
    ensures r.Some? ==> r.value == site.notifyEmail || r.value == adminEmail
    ensures !PhpEmpty(site.notifyEmail) && env.isEmail(site.notifyEmail) ==> r == Some(site.notifyEmail)
    ensures r.None? <==>
      (PhpEmpty(site.notifyEmail) || !env.isEmail(site.notifyEmail)) && (PhpEmpty(adminEmail) || !env.isEmail(adminEmail))
  {
    if !PhpEmpty(site.notifyEmail) && env.isEmail(site.notifyEmail) then Some(site.notifyEmail)
    else if !PhpEmpty(adminEmail) && env.isEmail(adminEmail) then Some(adminEmail)
    else None
  }

  /** `lm_monitor_get_status_color`. */
  function StatusColor(status: string): (r: string)
    ensures r in {C.ColorSuccess, C.ColorError, C.ColorWarning, C.ColorGray}
    ensures r == C.ColorSuccess <==> status == "UP"
    ensures r == C.ColorError <==> status == "DOWN"
    ensures r == C.ColorWarning <==> status != "UP" && status != "DOWN" && Contains(status, "ERROR")
  {
    if status == "UP" then C.ColorSuccess
    else if status == "DOWN" then C.ColorError
    else if Contains(status, "ERROR") then C.ColorWarning
    else C.ColorGray
  }

  datatype PerformanceLevel = UnknownSpeed | Fast | Medium | Slow | VerySlow

  /** Position of a level on the speed scale, slowest highest. */
  function SpeedRank(l: PerformanceLevel): nat {
    match l
    case UnknownSpeed => 0
    case Fast => 1
    case Medium => 2
    case Slow => 3
    case VerySlow => 4
  }

  /** `lm_monitor_get_performance_level`, response time in milliseconds. */
  function PerformanceLevelOf(responseTime: Option<int>): (l: PerformanceLevel)
    ensures l == UnknownSpeed <==> responseTime.None?
    ensures l == Fast <==> responseTime.Some? && responseTime.value < C.ResponseFast
    ensures l == Medium <==> responseTime.Some? && C.ResponseFast <= responseTime.value < C.ResponseSlow
    ensures l == Slow <==> responseTime.Some? && C.ResponseSlow <= responseTime.value < C.ResponseVerySlow
    ensures l == VerySlow <==> responseTime.Some? && C.ResponseVerySlow <= responseTime.value
  {
    match responseTime
    case None => UnknownSpeed
    case Some(t) =>
      if t < C.ResponseFast then Fast
      else if t < C.ResponseSlow then Medium
      else if t < C.ResponseVerySlow then Slow
      else VerySlow
  }

  /** A slower response never gets a faster level. */
  lemma PerformanceLevelMonotone(a: int, b: int)
    requires a <= b
    ensures SpeedRank(PerformanceLevelOf(Some(a))) <= SpeedRank(PerformanceLevelOf(Some(b)))
  {
  }

  datatype SslUrgency = NoCertificate | Expired | Critical | Warning | Safe

  /** `lm_monitor_get_ssl_urgency`, days until the certificate expires. */
  function SslUrgencyOf(days: Option<int>): (u: SslUrgency)
    ensures u == NoCertificate <==> days.None?
    ensures u == Expired <==> days.Some? && days.value < 0
    ensures u == Critical <==> days.Some? && 0 <= days.value <= C.SslCriticalDays
    ensures u == Warning <==> days.Some? && C.SslCriticalDays < days.value <= C.SslWarningDays
    ensures u == Safe <==> days.Some? && C.SslWarningDays < days.value
  {
    match days
    case None => NoCertificate
    case Some(d) =>
      if d < 0 then Expired
      else if d <= C.SslCriticalDays then Critical
      else if d <= C.SslWarningDays then Warning
      else Safe
  }

  /** `lm_monitor_sanitize_id` on an integer: `absint` then positive-or-false. */
  function SanitizeId(id: int): (r: Option<nat>)
    ensures r.Some? ==> r.value > 0
    ensures r.None? <==> id == 0
    ensures r.Some? ==> r.value == id || r.value == -id
  {
    var a := if id < 0 then -id else id;
    if a > 0 then Some(a) else None
  }

  /** The `page` argument `lm_monitor_admin_url` builds. */
  function AdminSlug(page: string): (r: string)
    ensures PhpEmpty(page) ==> r == "lm-monitor"
    ensures !PhpEmpty(page) ==> StartsWith(r, "lm-monitor-") && r[11..] == page
  {
    if PhpEmpty(page) then "lm-monitor" else "lm-monitor-" + page
  }

  /** `lm_monitor_get_site_name`: the URL's host, or the URL itself when it has none. */
  function SiteName(env: Env, url: string): (r: string)
    ensures env.parseHost(url).Some? ==> r == env.parseHost(url).value
    ensures env.parseHost(url).None? ==> r == url
  {
    match env.parseHost(url)
    case Some(h) => h
    case None => url
  }

  /** `lm_monitor_is_https`: a case-sensitive `https://` prefix. */
  predicate IsHttps(url: string) {
    StartsWith(url, C.HttpsPrefix)
  }

  /** `lm_monitor_transient_key`. */
  function TransientKey(key: string): (r: string)
    ensures StartsWith(r, "lm_monitor_") && r[11..] == key
  {
    "lm_monitor_" + key
  }

  /** Distinct keys never share a prefixed key. */
  lemma TransientKeyInjective(a: string, b: string)
    ensures TransientKey(a) == TransientKey(b) ==> a == b
  {
    assert a == TransientKey(a)[11..];
  }
}
