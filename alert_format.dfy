/**
 * The pure half of includes/alerts.php: the severity and urgency of an alert, the data
 * record each alert sends, the e-mail bodies, and the Discord, Slack and generic webhook
 * payloads. PHP arrays are modelled as `Json` values; key order is not modelled.
 */
module AlertFormat {
  import opened Wrappers
  import opened Text
  import opened Platform
  import opened Sites
  import H = Helpers
  import C = Constants

  datatype Severity = Info | Critical | Error | Resolved | Warning | Urgent

  function SeverityName(s: Severity): string {
    match s
    case Info => "INFO"
    case Critical => "CRITICAL"
    case Error => "ERROR"
    case Resolved => "RESOLVED"
    case Warning => "WARNING"
    case Urgent => "URGENT"
  }

  lemma SeverityNameInjective(a: Severity, b: Severity)
    ensures SeverityName(a) == SeverityName(b) ==> a == b
  {
  }

  /** The WordPress values an alert reads: site identity, the clock and the formatters. */
  datatype Wp = Wp(
    blogName: string,               // get_bloginfo('name')
    siteUrl: string,                // get_site_url()
    adminUrl: string,               // lm_monitor_admin_url()
    adminEmail: string,             // get_option('admin_email')
    mysqlNow: string,               // current_time('mysql')
    unixNow: int,                   // time()
    isoTime: int -> string,         // gmdate('c', $t)
    formatDate: string -> string,   // date_i18n(date and time format, strtotime($d))
    userName: string                // lm_monitor_get_user_name()
  )

  // ---------------------------------------------------------------------------
  // Severity and urgency
  // ---------------------------------------------------------------------------

  /** The severity of a status change; `previous` is "" when the site had no status yet. */
  function StatusSeverity(previous: string, current: string): (s: Severity)
    ensures s in {Critical, Error, Resolved, Info}
    ensures s == Critical <==> current == "DOWN"
    ensures s == Error <==> current != "DOWN" && Contains(current, "ERROR")
    ensures s == Resolved <==> current == "UP" && (previous == "DOWN" || Contains(previous, "ERROR"))
    ensures s == Info <==> current != "DOWN" && !Contains(current, "ERROR") &&
                           !(current == "UP" && (previous == "DOWN" || Contains(previous, "ERROR")))
  {
    ShorterNeverContains("UP", "ERROR");
    if current == "DOWN" then Critical
    else if Contains(current, "ERROR") then Error
    else if current == "UP" && (previous == "DOWN" || Contains(previous, "ERROR")) then Resolved
    else Info
  }

  /** The severity agrees with the dashboard colour of the current status: red is critical, orange is an error. */
  lemma SeverityMatchesStatusColor(previous: string, current: string)
    ensures H.StatusColor(current) == C.ColorError <==> StatusSeverity(previous, current) == Critical
    ensures H.StatusColor(current) == C.ColorWarning <==> StatusSeverity(previous, current) == Error
    ensures StatusSeverity(previous, current) == Resolved ==> H.StatusColor(current) == C.ColorSuccess
  {
    ShorterNeverContains("UP", "ERROR");
  }

  /** The urgency of a certificate alert. */
  function SslAlertUrgency(days: int): (u: Severity)
    ensures u == Urgent <==> days <= C.SslCriticalDays
    ensures u == Warning <==> days > C.SslCriticalDays
  {
    if days <= C.SslCriticalDays then Urgent else Warning
  }

  /** An alert is urgent exactly when the dashboard shows the certificate as expired or critical. */
  lemma UrgencyMatchesSslUrgency(days: int)
    ensures SslAlertUrgency(days) == Urgent <==> H.SslUrgencyOf(Some(days)) in {H.SslUrgency.Expired, H.SslUrgency.Critical}
  {
  }

  // ---------------------------------------------------------------------------
  // PHP arrays
  // ---------------------------------------------------------------------------

  datatype Json =
    | JNull | JBool(b: bool) | JInt(i: int) | JStr(s: string)
    | JList(items: seq<Json>) | JObject(members: map<string, Json>)

  type Data = map<string, Json>

  /** `$data[$key]`, null when unset. */
  function Get(data: Data, key: string): Json {
    if key in data then data[key] else JNull
  }

  /** A scalar used as a string, as PHP's `.` converts it. */
  function ToStr(j: Json): string {
    match j
    case JNull => ""
    case JBool(b) => if b then "1" else ""
    case JInt(i) => IntToDecimal(i)
    case JStr(s) => s
    case _ => "Array"
  }

  /** PHP `empty()` on a scalar. */
  predicate JsonEmpty(j: Json) {
    match j
    case JNull => true
    case JBool(b) => !b
    case JInt(i) => i == 0
    case JStr(s) => PhpEmpty(s)
    case JList(items) => items == []
    case JObject(m) => m == map[]
  }

  function OptStr(o: Option<string>): Json {
    match o
    case None => JNull
    case Some(s) => JStr(s)
  }

  /** A nullable string used as a condition. */
  predicate Truthy(o: Option<string>) {
    o.Some? && !PhpEmpty(o.value)
  }

  // ---------------------------------------------------------------------------
  // The data record of each alert
  // ---------------------------------------------------------------------------

  /** `absint($id)`. */
  function AbsInt(id: int): nat {
    if id < 0 then -id else id
  }

  function StatusChangeData(id: int, url: string, previous: string, current: string, severity: Severity, w: Wp): (d: Data)
    ensures Get(d, "type") == JStr("status_change")
    ensures Get(d, "severity") == JStr(SeverityName(severity))
    ensures Get(d, "old_status") == JStr(if PhpEmpty(previous) then "UNKNOWN" else previous)
  {
    map[
      "type" := JStr("status_change"),
      "severity" := JStr(SeverityName(severity)),
      "site_id" := JInt(AbsInt(id)),
      "url" := JStr(url),
      "old_status" := JStr(if PhpEmpty(previous) then "UNKNOWN" else previous),
      "new_status" := JStr(current),
      "timestamp" := JStr(w.mysqlNow),
      "unix_timestamp" := JInt(w.unixNow),
      "site_name" := JStr(w.blogName)
    ]
  }

  function SslExpiringData(id: int, url: string, days: int, site: Site, urgency: Severity, w: Wp): (d: Data)
    ensures Get(d, "type") == JStr("ssl_expiring")
    ensures Get(d, "severity") == Get(d, "urgency") == JStr(SeverityName(urgency))
    ensures Get(d, "days_remaining") == JInt(days)
  {
    map[
      "type" := JStr("ssl_expiring"),
      "severity" := JStr(SeverityName(urgency)),
      "site_id" := JInt(AbsInt(id)),
      "url" := JStr(url),
      "days_remaining" := JInt(days),
      "expiry_date" := OptStr(site.sslExpiryDate),
      "issuer" := OptStr(site.sslIssuer),
      "urgency" := JStr(SeverityName(urgency)),
      "timestamp" := JStr(w.mysqlNow),
      "unix_timestamp" := JInt(w.unixNow),
      "site_name" := JStr(w.blogName)
    ]
  }

  function TestData(w: Wp): (d: Data)
    ensures Get(d, "type") == JStr("test") && Get(d, "severity") == JStr("INFO")
  {
    map[
      "type" := JStr("test"),
      "severity" := JStr("INFO"),
      "message" := JStr("Test notification from LM Monitor"),
      "site" := JStr(w.blogName),
      "site_url" := JStr(w.siteUrl),
      "timestamp" := JStr(w.mysqlNow),
      "unix_timestamp" := JInt(w.unixNow),
      "user" := JStr(w.userName)
    ]
  }

  // ---------------------------------------------------------------------------
  // Webhook payloads
  // ---------------------------------------------------------------------------

  /** The embed colour for the alert's severity. */
  function DiscordColor(severity: Json): (c: int)
    ensures c == C.DiscordRed <==> severity == JStr("CRITICAL")
    ensures c == C.DiscordOrange <==> severity == JStr("WARNING") || severity == JStr("URGENT")
    ensures c == C.DiscordGreen <==> severity == JStr("RESOLVED")
    ensures c == C.DiscordBlue <==> !(severity in {JStr("CRITICAL"), JStr("WARNING"), JStr("URGENT"), JStr("RESOLVED")})
  {
    if severity == JStr("CRITICAL") then C.DiscordRed
    else if severity == JStr("WARNING") || severity == JStr("URGENT") then C.DiscordOrange
    else if severity == JStr("RESOLVED") then C.DiscordGreen
    else C.DiscordBlue
  }

  /** The attachment colour for the alert's severity. */
  function SlackColor(severity: Json): (c: string)
    ensures c == "danger" <==> severity == JStr("CRITICAL")
    ensures c == "warning" <==> severity == JStr("WARNING") || severity == JStr("URGENT")
    ensures c == "good" <==> !(severity in {JStr("CRITICAL"), JStr("WARNING"), JStr("URGENT")})
  {
    if severity == JStr("CRITICAL") then "danger"
    else if severity == JStr("WARNING") || severity == JStr("URGENT") then "warning"
    else "good"
  }

  /** An ERROR alert is blue on Discord and green on Slack, like an informational one. */
  lemma ErrorSeverityColors()
    ensures DiscordColor(JStr(SeverityName(Error))) == DiscordColor(JStr(SeverityName(Info))) == C.DiscordBlue
    ensures SlackColor(JStr(SeverityName(Error))) == SlackColor(JStr(SeverityName(Info))) == "good"
  {
  }

  function DiscordField(name: string, value: Json, inline: bool): Json {
    JObject(map["name" := JStr(name), "value" := value, "inline" := JBool(inline)])
  }

  function SlackField(title: string, value: Json, short: bool): Json {
    JObject(map["title" := JStr(title), "value" := value, "short" := JBool(short)])
  }

  /** The Discord embed's description, title and fields for each alert type; None where the type is none of the three. */
  function DiscordParts(data: Data): (r: (Option<Json>, string, seq<Json>))
    ensures Get(data, "type") == JStr("ssl_expiring") ==>
      |r.2| == 2 + (if JsonEmpty(Get(data, "expiry_date")) then 0 else 1) + (if JsonEmpty(Get(data, "issuer")) then 0 else 1)
    ensures Get(data, "type") == JStr("status_change") ==> |r.2| == 2
    ensures !(Get(data, "type") in {JStr("status_change"), JStr("ssl_expiring"), JStr("test")}) ==>
      r == (None, "🔔 Website Monitoring Alert", [])
  {
    var t := Get(data, "type");
    if t == JStr("status_change") then
      (Some(JStr("**" + ToStr(Get(data, "url")) + "**")), "🔔 Website Monitoring Alert",
       [DiscordField("Status Change", JStr(ToStr(Get(data, "old_status")) + " → **" + ToStr(Get(data, "new_status")) + "**"), false),
        DiscordField("Severity", Get(data, "severity"), true)])
    else if t == JStr("ssl_expiring") then
      (Some(JStr("**SSL Certificate Expiring**")), "🔔 Website Monitoring Alert",
       [DiscordField("Website", Get(data, "url"), false),
        DiscordField("Days Remaining", JStr(ToStr(Get(data, "days_remaining")) + " days"), true)]
       + (if JsonEmpty(Get(data, "expiry_date")) then [] else [DiscordField("Expires", Get(data, "expiry_date"), true)])
       + (if JsonEmpty(Get(data, "issuer")) then [] else [DiscordField("Issuer", Get(data, "issuer"), true)]))
    else if t == JStr("test") then
      (Some(Get(data, "message")), "✅ Test Notification", [DiscordField("From", Get(data, "site"), true)])
    else (None, "🔔 Website Monitoring Alert", [])
  }

  function IntOf(j: Json): int {
    match j
    case JInt(i) => i
    case _ => 0
  }

  function DiscordEmbed(data: Data, w: Wp): (e: Json)
    ensures e.JObject? && "color" in e.members && e.members["color"] == JInt(DiscordColor(Get(data, "severity")))
    ensures "description" in e.members <==> DiscordParts(data).0.Some?
    ensures "fields" in e.members && e.members["fields"] == JList(DiscordParts(data).2)
  {
    var parts := DiscordParts(data);
    var base := map[
      "title" := JStr(parts.1),
      "color" := JInt(DiscordColor(Get(data, "severity"))),
      "timestamp" := JStr(w.isoTime(IntOf(Get(data, "unix_timestamp")))),
      "footer" := JObject(map["text" := JStr("LM Monitor v" + C.Version)]),
      "fields" := JList(parts.2)
    ];
    JObject(match parts.0 case Some(d) => base["description" := d] case None => base)
  }

  /** The Slack attachment's title, text and fields for each alert type. */
  function SlackParts(data: Data): (r: (Option<(string, Json)>, seq<Json>))
    ensures Get(data, "type") == JStr("ssl_expiring") ==>
      |r.1| == 1 + (if JsonEmpty(Get(data, "expiry_date")) then 0 else 1)
    ensures Get(data, "type") == JStr("status_change") ==> |r.1| == 2
    ensures !(Get(data, "type") in {JStr("status_change"), JStr("ssl_expiring"), JStr("test")}) ==> r == (None, [])
  {
    var t := Get(data, "type");
    if t == JStr("status_change") then
      (Some(("🔔 Website Monitoring Alert", JStr("*" + ToStr(Get(data, "url")) + "*"))),
       [SlackField("Status Change", JStr(ToStr(Get(data, "old_status")) + " → *" + ToStr(Get(data, "new_status")) + "*"), false),
        SlackField("Severity", Get(data, "severity"), true)])
    else if t == JStr("ssl_expiring") then
      (Some(("⚠️ SSL Certificate Expiring", JStr("*" + ToStr(Get(data, "url")) + "*"))),
       [SlackField("Days Remaining", JStr(ToStr(Get(data, "days_remaining")) + " days"), true)]
       + (if JsonEmpty(Get(data, "expiry_date")) then [] else [SlackField("Expires", Get(data, "expiry_date"), true)]))
    else if t == JStr("test") then
      (Some(("✅ Test Notification", Get(data, "message"))), [SlackField("From", Get(data, "site"), true)])
    else (None, [])
  }

  function SlackAttachment(data: Data): (a: Json)
    ensures a.JObject? && "color" in a.members && a.members["color"] == JStr(SlackColor(Get(data, "severity")))
    ensures "title" in a.members <==> SlackParts(data).0.Some?
    ensures "fields" in a.members && a.members["fields"] == JList(SlackParts(data).1)
  {
    var parts := SlackParts(data);
    var base := map[
      "color" := JStr(SlackColor(Get(data, "severity"))),
      "footer" := JStr("LM Monitor v" + C.Version),
      "ts" := Get(data, "unix_timestamp"),
      "fields" := JList(parts.1)
    ];
    JObject(match parts.0 case Some((title, text)) => base["title" := JStr(title)]["text" := text] case None => base)
  }

  /** The data as sent to any other endpoint: unchanged apart from the plugin version and site URL. */
  function GenericPayload(data: Data, w: Wp): (p: Json)
    ensures p.JObject? && p.members.Keys == data.Keys + {"plugin_version", "site_url"}
    ensures p.members["plugin_version"] == JStr(C.Version) && p.members["site_url"] == JStr(w.siteUrl)
    ensures forall k :: k in data && k != "plugin_version" && k != "site_url" ==> p.members[k] == data[k]
  {
    JObject(data["plugin_version" := JStr(C.Version)]["site_url" := JStr(w.siteUrl)])
  }

  predicate IsDiscordUrl(url: string) {
    Contains(url, "discord.com") || Contains(url, "discordapp.com")
  }

  predicate IsSlackUrl(url: string) {
    Contains(url, "slack.com")
  }

  /** The payload for the endpoint the URL names: Discord first, then Slack, else the generic form. */
  function FormatPayload(url: string, data: Data, w: Wp): (p: Json)
    ensures IsDiscordUrl(url) ==> p == JObject(map["embeds" := JList([DiscordEmbed(data, w)])])
    ensures !IsDiscordUrl(url) && IsSlackUrl(url) ==> p == JObject(map["attachments" := JList([SlackAttachment(data)])])
    ensures !IsDiscordUrl(url) && !IsSlackUrl(url) ==> p == GenericPayload(data, w)
  {
    if IsDiscordUrl(url) then JObject(map["embeds" := JList([DiscordEmbed(data, w)])])
    else if IsSlackUrl(url) then JObject(map["attachments" := JList([SlackAttachment(data)])])
    else GenericPayload(data, w)
  }

  /** A URL naming both Discord and Slack gets a Discord payload. */
  lemma DiscordWinsOverSlack(url: string, data: Data, w: Wp)
    requires Contains(url, "discord.com") && Contains(url, "slack.com")
    ensures FormatPayload(url, data, w).members.Keys == {"embeds"}
  {
  }

  /** A status-change payload shows the severity's colour on every endpoint: red and "danger" exactly when the site went DOWN. */
  lemma StatusChangeColors(id: int, url: string, previous: string, current: string, w: Wp)
    ensures var d := StatusChangeData(id, url, previous, current, StatusSeverity(previous, current), w);
      && (DiscordColor(Get(d, "severity")) == C.DiscordRed <==> current == "DOWN")
      && (SlackColor(Get(d, "severity")) == "danger" <==> current == "DOWN")
      && (DiscordColor(Get(d, "severity")) == C.DiscordGreen <==> StatusSeverity(previous, current) == Resolved)
  {
    var s := StatusSeverity(previous, current);
    SeverityNameInjective(s, Critical);
    SeverityNameInjective(s, Resolved);
  }

  /** Slack's certificate attachment never shows the issuer, where Discord's embed does when it is set. */
  lemma SlackOmitsIssuer(id: int, url: string, days: int, site: Site, urgency: Severity, w: Wp)
    requires Truthy(site.sslIssuer) && Truthy(site.sslExpiryDate)
    ensures |DiscordParts(SslExpiringData(id, url, days, site, urgency, w)).2| == 4
    ensures |SlackParts(SslExpiringData(id, url, days, site, urgency, w)).1| == 2
  {
  }

  // ---------------------------------------------------------------------------
  // E-mail bodies
  // ---------------------------------------------------------------------------

  /** The footer line both e-mails end with, before the blog name. */
  const FooterPrefix: string := "This is an automated message from LM Monitor on "

  function StatusAlertLines(site: Site, previous: string, current: string, severity: Severity, w: Wp): seq<string> {
    ["Website Monitoring Alert - " + SeverityName(severity),
     "",
     "Website: " + site.url,
     "Previous Status: " + (if PhpEmpty(previous) then "UNKNOWN" else previous),
     "Current Status: " + current,
     "Time: " + w.mysqlNow]
    + (match site.responseTime case Some(t) => ["Response Time: " + GroupedDecimal(t) + " ms"] case None => [])
    + (match site.sslDaysRemaining case Some(d) => ["SSL Days Remaining: " + IntToDecimal(d) + " days"] case None => [])
    + ["",
       "---",
       FooterPrefix + w.blogName,
       "Manage monitoring: " + w.adminUrl]
  }

  /** `lm_monitor_build_status_alert_email`: the lines joined with newlines. */
  function StatusAlertEmail(site: Site, previous: string, current: string, severity: Severity, w: Wp): string {
    Join(StatusAlertLines(site, previous, current, severity, w), "\n")
  }

  /**
   * The status e-mail has ten fixed lines plus one for each value the site has: the
   * response time (as `number_format` prints it) and the certificate's days remaining.
   */
  lemma StatusAlertLayout(site: Site, previous: string, current: string, severity: Severity, w: Wp)
    ensures var lines := StatusAlertLines(site, previous, current, severity, w);
      var extra := (if site.responseTime.Some? then 1 else 0) + (if site.sslDaysRemaining.Some? then 1 else 0);
      && |lines| == 10 + extra
      && lines[0] == "Website Monitoring Alert - " + SeverityName(severity)
      && lines[3] == "Previous Status: " + (if PhpEmpty(previous) then "UNKNOWN" else previous)
      && (site.responseTime.Some? ==> lines[6] == "Response Time: " + GroupedDecimal(site.responseTime.value) + " ms")
      && (site.sslDaysRemaining.Some? ==>
            lines[6 + extra - 1] == "SSL Days Remaining: " + IntToDecimal(site.sslDaysRemaining.value) + " days")
      && lines[|lines| - 1] == "Manage monitoring: " + w.adminUrl
  {
    var lines := StatusAlertLines(site, previous, current, severity, w);
    var head := lines[..6];
    var rt: seq<string> := match site.responseTime case Some(t) => ["Response Time: " + GroupedDecimal(t) + " ms"] case None => [];
    var ssl: seq<string> := match site.sslDaysRemaining case Some(d) => ["SSL Days Remaining: " + IntToDecimal(d) + " days"] case None => [];
    var tail := ["", "---", FooterPrefix + w.blogName, "Manage monitoring: " + w.adminUrl];
    assert lines == head + rt + ssl + tail;
  }

  /** When no line holds a newline, the status e-mail body splits back into exactly its lines. */
  lemma StatusAlertRoundTrip(site: Site, previous: string, current: string, severity: Severity, w: Wp)
    requires forall i :: 0 <= i < |StatusAlertLines(site, previous, current, severity, w)| ==>
               '\n' !in StatusAlertLines(site, previous, current, severity, w)[i]
    ensures Split(StatusAlertEmail(site, previous, current, severity, w), '\n') == StatusAlertLines(site, previous, current, severity, w)
  {
    SplitJoin(StatusAlertLines(site, previous, current, severity, w), '\n');
  }

  /** The advice line of the certificate e-mail. */
  const RenewAdvice: string := "Please renew your SSL certificate as soon as possible to avoid service interruption."

  function SslAlertLines(site: Site, url: string, days: int, urgency: Severity, w: Wp): seq<string> {
    ["SSL Certificate Expiration " + SeverityName(urgency),
     "",
     "Website: " + url,
     "Days Remaining: " + IntToDecimal(days) + " days"]
    + (if Truthy(site.sslExpiryDate) then ["Expiry Date: " + w.formatDate(site.sslExpiryDate.value)] else [])
    + (if Truthy(site.sslIssuer) then ["Issuer: " + site.sslIssuer.value] else [])
    + ["Urgency: " + SeverityName(urgency),
       "",
       RenewAdvice,
       "",
       "---",
       FooterPrefix + w.blogName]
  }

  /** `lm_monitor_build_ssl_alert_email`. */
  function SslAlertEmail(site: Site, url: string, days: int, urgency: Severity, w: Wp): string {
    Join(SslAlertLines(site, url, days, urgency, w), "\n")
  }

  /**
   * The certificate e-mail has ten fixed lines, plus the expiry date and the issuer
   * when the site has them; the urgency line always follows them.
   */
  lemma SslAlertLayout(site: Site, url: string, days: int, urgency: Severity, w: Wp)
    ensures var lines := SslAlertLines(site, url, days, urgency, w);
      var extra := (if Truthy(site.sslExpiryDate) then 1 else 0) + (if Truthy(site.sslIssuer) then 1 else 0);
      && |lines| == 10 + extra
      && lines[3] == "Days Remaining: " + IntToDecimal(days) + " days"
      && (Truthy(site.sslExpiryDate) ==> lines[4] == "Expiry Date: " + w.formatDate(site.sslExpiryDate.value))
      && (Truthy(site.sslIssuer) ==> lines[4 + extra - 1] == "Issuer: " + site.sslIssuer.value)
      && lines[4 + extra] == "Urgency: " + SeverityName(urgency)
  {
    var lines := SslAlertLines(site, url, days, urgency, w);
    var head := lines[..4];
    var exp: seq<string> := if Truthy(site.sslExpiryDate) then ["Expiry Date: " + w.formatDate(site.sslExpiryDate.value)] else [];
    var iss: seq<string> := if Truthy(site.sslIssuer) then ["Issuer: " + site.sslIssuer.value] else [];
    var tail := ["Urgency: " + SeverityName(urgency), "", RenewAdvice,
                 "", "---", FooterPrefix + w.blogName];
    assert lines == head + exp + iss + tail;
  }

  /** When no line holds a newline, the certificate e-mail body splits back into exactly its lines. */
  lemma SslAlertRoundTrip(site: Site, url: string, days: int, urgency: Severity, w: Wp)
    requires forall i :: 0 <= i < |SslAlertLines(site, url, days, urgency, w)| ==> '\n' !in SslAlertLines(site, url, days, urgency, w)[i]
    ensures Split(SslAlertEmail(site, url, days, urgency, w), '\n') == SslAlertLines(site, url, days, urgency, w)
  {
    SplitJoin(SslAlertLines(site, url, days, urgency, w), '\n');
  }
}
