# LM Monitor in Dafny

A model of the core of LM Monitor, a WordPress plugin that keeps a list of websites,
checks them on a WP-Cron schedule (HTTP status, response time, TLS certificate expiry),
records the outcome and alerts the administrator by e-mail and webhook (Discord, Slack or
a generic JSON receiver) when a site changes state or its certificate nears expiry.

The model follows the plugin's files:

- `text.dfy` (`Text`): the PHP string built-ins the core relies on — `empty()` on strings,
  `strpos`, `trim`, `strtolower`, `intval`-style decimal output, `number_format` with
  thousands separators, `explode` and `implode` — with their round trips proved.
- `wrappers.dfy`, `constants.dfy`, `sites.dfy`, `platform.dfy`: `Option`/`Result`, the
  plugin's constants, the stored site record, and `Env`, the WordPress and PHP functions
  the core calls but does not define (`esc_url_raw`, `parse_url`, `filter_var`,
  `sanitize_email`, `is_email`, `sanitize_text_field`, the duplicate-URL query), taken as
  parameters.
- `transients.dfy` (`Transients`): the prefixed transient store with expiry times.
- `helpers.dfy` (`Helpers`): the cached settings object, the alert recipient, the status,
  performance and certificate classifications, and the key and slug builders.
- `validator.dfy` (`Validator`): URL, e-mail and webhook validation, each rejection as its
  own error value, and settings sanitisation.
- `monitor.dfy` (`Monitor`): one website check, the certificate inspection, the shape
  check on a result, and the dashboard renderers (badges, uptime, "time ago").
- `alert_format.dfy` (`AlertFormat`) and `alerts.dfy` (`Alerts`): alert severity, the
  e-mail bodies, the webhook payloads, and the `Dispatcher` class whose methods append
  the mails and webhook requests they send to an outbox and keep the certificate-alert
  markers in the transient store.
- `cron.dfy` (`Cron`): the schedules, the batch size, and the `Scheduler` class that runs
  a batch under the cron lock, records each probe and database update it makes, and the
  administrator's "check all" action.
- `settings_page.dfy` (`SettingsPage`): the settings form handler.

Network, database and clock access are inputs: a website check receives the HTTP outcome,
the elapsed milliseconds and the TLS handshake's outcome; a batch run receives the site
selection, the probe and the database update as functions of the site.

## Model

| member | source | states |
|---|---|---|
| Text.Trim | includes/core/validator.php:26 | the result is the input with the trim characters (space, tab, newline, carriage return, NUL, vertical tab) removed from both ends and nothing else: it occurs in the input, everything before and after it is a trim character, and it neither starts nor ends with one |
| Text.TrimIdempotent | includes/core/validator.php:164 | trimming an already trimmed string changes nothing |
| Text.ToLower | includes/core/validator.php:65 | lower-casing keeps the length, maps each ASCII capital to its lower-case letter and leaves every other character unchanged |
| Text.ToLowerProperties | includes/core/validator.php:137 | the lower-cased string has no ASCII capital, and lower-casing twice equals lower-casing once |
| Text.NatToDecimal | includes/core/monitor.php:263 | the text is non-empty and made of decimal digits only |
| Text.DecimalRoundTrip | includes/core/monitor.php:263 | reading back the decimal digits gives the number |
| Text.IntToDecimalInjective | includes/core/monitor.php:71-79 | two different integers never print the same (so `ERROR 404` and `ERROR 500` differ) |
| Text.GroupedDecimal | includes/core/monitor.php:263 | `number_format($n, 0)` is non-empty and starts with a digit |
| Text.GroupedDecimalValue | includes/core/monitor.php:263 | removing the commas from the grouped form and reading the digits gives back the number |
| Text.Split | includes/core/validator.php:136 | `explode`: at least one part, the first part a prefix of the input, a single part exactly when the separator is absent, no part holds the separator |
| Text.SplitJoin | includes/alerts.php:105 | splitting `implode` of separator-free lines on the separator gives the lines back |
| Text.ContainsIff | includes/helpers.php:184 | `strpos(...) !== false` holds exactly when the needle occurs at some position |
| Transients.Get | includes/helpers.php:319-321 | a key is found exactly when its prefixed entry exists and has not expired, and then its stored value is returned |
| Transients.GetAfterSet | includes/helpers.php:331-333 | a value stored with a lifetime is read back until the lifetime ends and is gone afterwards |
| Transients.OtherKeysUntouched | includes/helpers.php:331-343 | storing or deleting one key never changes what another key reads |
| Transients.GetAfterDelete | includes/helpers.php:341-343 | a deleted key is never found |
| Helpers.WithDefaults | includes/helpers.php:60-67 | the stored settings win; every default key missing from them is added with its default value; no other key appears |
| Helpers.SettingOr | includes/helpers.php:80-83 | a present non-null setting is returned, otherwise the caller's default |
| Helpers.SettingsCache.constructor | includes/helpers.php:53-54 | a fresh request starts with no cached settings |
| Helpers.SettingsCache.GetSettings | includes/helpers.php:53-71 | without a cache or when forced, the stored row merged with the defaults is returned; otherwise the cached value; either way the result is cached |
| Helpers.SettingsCache.GetSetting | includes/helpers.php:80-83 | the setting is looked up in the (possibly freshly loaded) cached settings, falling back to the default |
| Helpers.SettingsCache.Store | includes/admin/settings-page.php:76 | saving replaces the stored row and does not refresh the cache |
| Helpers.SaveThenRefresh | includes/admin/settings-page.php:76-79 | saving then reading with a forced refresh returns the saved row merged with the defaults |
| Helpers.AlertRecipient | includes/helpers.php:102-115 | the site's notify address wins when non-empty and valid; otherwise the admin address when valid; otherwise no recipient; a recipient is always a valid, non-empty address |
| Helpers.StatusColor | includes/helpers.php:175-189 | green exactly for `UP`, red exactly for `DOWN`, orange exactly for other statuses containing `ERROR`, grey otherwise |
| Helpers.PerformanceLevelOf | includes/helpers.php:197-215 | unknown exactly when there is no time; fast below 1000 ms, medium below 3000, slow below 5000, very slow from 5000 |
| Helpers.PerformanceLevelMonotone | includes/helpers.php:197-215 | a slower response never gets a better level |
| Helpers.SslUrgencyOf | includes/helpers.php:223-241 | none without days; expired below 0; critical from 0 to 7; warning from 8 to 30; safe above 30 |
| Helpers.SanitizeId | includes/helpers.php:249-252 | the absolute value of the id, rejected exactly when it is 0 |
| Helpers.AdminSlug | includes/helpers.php:270-280 | the main page slug for an empty page, otherwise `lm-monitor-` followed by the page |
| Helpers.SiteName | includes/helpers.php:288-291 | the URL's host when it has one, the URL itself otherwise |
| Helpers.TransientKey | includes/helpers.php:309-311 | the key behind the `lm_monitor_` prefix |
| Helpers.TransientKeyInjective | includes/helpers.php:309-311 | different keys never share a transient |
| Validator.DotIndex | includes/core/validator.php:57 | the position of the first dot, or the length when there is none |
| Validator.HostGrammarShape | includes/core/validator.php:57-62 | a host the domain pattern accepts is non-empty, starts and ends alphanumeric, holds only alphanumerics, hyphens and dots, and every dot sits between two alphanumerics |
| Validator.HostGrammarCons | includes/core/validator.php:57 | a label followed by a dot and an accepted host is accepted |
| Validator.HostGrammarLabel | includes/core/validator.php:57 | a single label is accepted |
| Validator.DotIndexOfLabel | includes/core/validator.php:57 | the first dot of a label followed by a dotted tail is right after the label |
| Validator.BlockedHostsPassPattern | includes/core/validator.php:57-70 | every blocked host (`localhost`, `127.0.0.1`, `0.0.0.0`) passes the domain pattern, so only the blocklist stops it |
| Validator.HttpsUrlPassesSchemeCheck | includes/helpers.php:299-301 | a URL counted as HTTPS also passes the case-insensitive http(s) scheme check of the validator |
| Validator.ValidateUrl | includes/core/validator.php:16-102 | empty input is rejected as empty and only it; an accepted URL is the escaped trimmed input, with an http(s) scheme, a host matching the domain pattern, not blocked, not private or reserved, not already monitored and at most 255 characters; a too-long URL is not a duplicate |
| Validator.ValidateUrlComplete | includes/core/validator.php:16-102 | every URL that passes all guards is accepted |
| Validator.DuplicateReportedBeforeLength | includes/core/validator.php:83-96 | an already monitored URL is reported as a duplicate even when it is also too long |
| Validator.BlockedHostRefused | includes/core/validator.php:65-70 | a blocked host is refused as local whatever else holds |
| Validator.AcceptedHostShape | includes/core/validator.php:57-62 | an accepted host, less a possible trailing newline the pattern's `$` lets through, has the shape of a domain name |
| Validator.DomainPart | includes/core/validator.php:136-137 | the second `explode('@')` part: absent exactly when there is no `@`, otherwise the text right after the first `@` up to the next one |
| Validator.ValidateEmail | includes/core/validator.php:110-147 | empty input is accepted as empty; otherwise rejected as invalid exactly when the sanitised address is not an e-mail, as too long exactly when it is one over 100 characters, as disposable exactly when it passes both and its lower-cased domain is on the list; accepted addresses are the sanitised ones |
| Validator.ValidateWebhookUrl | includes/core/validator.php:156-229 | empty input is accepted as empty; rejected as invalid exactly when the trimmed URL is not a URL; an accepted URL passed every guard, is the escaped trimmed input, and carries a warning exactly when it does not start with lower-case `https://` |
| Validator.UpperCaseHttpsWarns | includes/core/validator.php:217-224 | an accepted `HTTPS://` URL still carries the warning, since that test is case-sensitive |
| Validator.ValidateWebhookComplete | includes/core/validator.php:156-229 | every webhook URL that passes all guards is accepted |
| Validator.Clamp | includes/core/validator.php:246-256 | the value kept inside the bounds, unchanged when already inside |
| Validator.SanitizeSettings | includes/core/validator.php:238-259 | exactly the set keys among webhook URL, interval and cooldown are kept; the interval is the stored integer clamped to 5..60 and the cooldown clamped to 1..168; an accepted webhook URL is saved as its validated form and a rejected one as the empty string |
| Validator.SanitizeSettingsIdempotent | includes/core/validator.php:238-259 | sanitising twice gives the result of sanitising once, given a webhook URL that is stable under validation |
| Validator.RejectedWebhookStable | includes/core/validator.php:241-244 | a rejected webhook URL is stable, because the empty string it becomes is accepted unchanged |
| Monitor.FailedCheckResult | includes/core/monitor.php:106-115 | status `DOWN` with the given message and every other field empty |
| Monitor.TlsPort | includes/core/monitor.php:132-137 | the URL's port when it is 1..65535, otherwise 443 |
| Monitor.DaysRemaining | includes/core/monitor.php:192-194 | the floor of the seconds to expiry over a day, negative exactly when the certificate has expired |
| Monitor.IssuerOf | includes/core/monitor.php:197-204 | the issuer organisation, else its common name, else its unit, else `Unknown` |
| Monitor.GetSslInfo | includes/core/monitor.php:123-219 | no host, failed connection, missing certificate, unparsable certificate or a missing expiry time each give their own error; a parsed certificate gives its expiry, days remaining, sanitised issuer and subject |
| Monitor.ExpiredCertificateNegativeDays | includes/core/monitor.php:192-194 | the days remaining are negative exactly when the expiry time is before now |
| Monitor.CodeStatus | includes/core/monitor.php:67-80 | `UP` exactly for 200..399; `ERROR <code>` for 400..599; `ERROR` for any other code |
| Monitor.CodeError | includes/core/monitor.php:67-80 | no message exactly when the status is up; a client, server or unknown-code message otherwise |
| Monitor.CheckWebsite | includes/core/monitor.php:16-98 | an empty or invalid URL fails with `Invalid URL`; a transport error or exception gives `DOWN` with its message; a response gives the code's status, message and the elapsed time, and certificate data exactly when the URL is HTTPS and the certificate could be read |
| Monitor.SslNeverChangesStatus | includes/core/monitor.php:83-90 | the certificate outcome never changes the status, time or message of a check |
| Monitor.HttpUrlHasNoSsl | includes/core/monitor.php:83-90 | a URL that is not HTTPS never gets certificate data |
| Monitor.StatusIsUpDownOrError | includes/core/monitor.php:16-98 | every status is `UP`, `DOWN` or starts with `ERROR` |
| Monitor.UpIffSuccessOrRedirect | includes/core/monitor.php:67-80 | a check is up exactly when the URL is valid and the response code is 200..399 |
| Monitor.AllKeysPresent | includes/core/monitor.php:440-446 | true exactly when every required key is present |
| Monitor.IsValidCheckResult | includes/core/monitor.php:435-449 | true exactly for an array holding the five result keys |
| Monitor.CheckResultsAreValid | includes/core/monitor.php:435-449 | every result a check produces passes the shape check |
| Monitor.StatusBadgeOf | includes/core/monitor.php:227-249 | unknown exactly for an empty status; up and down exactly for the sanitised `UP` and `DOWN`; any other status shown as its sanitised text |
| Monitor.ResponseTimeBadge | includes/core/monitor.php:257-285 | no badge without a time; green and `Fast` up to 1000 ms, orange and `Slow` up to 5000, red and `Very Slow` above; the text is the time with thousands separators |
| Monitor.BadgeAndLevelBoundaries | includes/core/monitor.php:266-275 | the badge's green and red bands differ from the performance levels: exactly 1000 ms is a green badge yet a medium level |
| Monitor.SslBadgeOf | includes/core/monitor.php:294-343 | no badge without days; expired exactly below 0; otherwise the day count |
| Monitor.SslBadgeMatchesUrgency | includes/core/monitor.php:294-343 | the badge colour agrees with the certificate urgency in every band |
| Monitor.RoundDiv | includes/core/monitor.php:366 | the quotient rounded to the nearest integer, halves away from zero as PHP `round` does |
| Monitor.RoundDivMonotone | includes/core/monitor.php:366 | rounding keeps the order of numerators |
| Monitor.UptimeHundredths | includes/core/monitor.php:351-367 | a missing site or one never checked is at 100%; otherwise the uptime is (checks - downs) / checks as hundredths of a percent, rounded to the nearest |
| Monitor.UptimeBounds | includes/core/monitor.php:351-367 | uptime lies in 0..100% when downs never exceed checks; 100% with no downs; 0% when every check was down |
| Monitor.UptimeMonotone | includes/core/monitor.php:363-366 | more downs never raise the uptime |
| Monitor.UptimeColor | includes/core/monitor.php:375-395 | four colour bands, with boundaries at 99.9%, 99% and 95% |
| Monitor.TimeAgo | includes/core/monitor.php:403-427 | never for an empty time, unknown for an unparsable one, otherwise the whole seconds, minutes, hours or days elapsed, each in its range |
| AlertFormat.SeverityNameInjective | includes/alerts.php:39-46 | different severities have different names |
| AlertFormat.StatusSeverity | includes/alerts.php:39-46 | critical exactly for `DOWN`; error exactly for other statuses containing `ERROR`; resolved exactly for `UP` after `DOWN` or an error; info otherwise |
| AlertFormat.SeverityMatchesStatusColor | includes/helpers.php:175-189 | a critical alert goes with the red status colour and an error alert with the orange one; a resolved alert's status is green |
| AlertFormat.SslAlertUrgency | includes/alerts.php:188 | urgent exactly at 7 days or fewer, a warning otherwise |
| AlertFormat.UrgencyMatchesSslUrgency | includes/helpers.php:223-241 | an alert is urgent exactly when the certificate urgency is expired or critical |
| AlertFormat.StatusChangeData | includes/alerts.php:136-156 | a status-change record with its severity name and `UNKNOWN` for an empty previous status |
| AlertFormat.SslExpiringData | includes/alerts.php:260-282 | a certificate record whose severity and urgency both carry the urgency name, with the days remaining |
| AlertFormat.TestData | includes/alerts.php:506-514 | a test record of severity `INFO` |
| AlertFormat.DiscordColor | includes/alerts.php:352-362 | red exactly for critical, orange exactly for warning or urgent, green exactly for resolved, blue otherwise |
| AlertFormat.SlackColor | includes/alerts.php:429-437 | `danger` exactly for critical, `warning` exactly for warning or urgent, `good` otherwise |
| AlertFormat.ErrorSeverityColors | includes/alerts.php:352-437 | an `ERROR` alert is coloured like an informational one on both services |
| AlertFormat.DiscordParts | includes/alerts.php:364-422 | two fields for a status change; for a certificate alert two plus one each for a non-empty expiry date and issuer; for an unknown record type no description, the default title and no fields |
| AlertFormat.DiscordEmbed | includes/alerts.php:352-424 | the embed carries the severity's colour, a description exactly when its record type has one, and the fields for the type |
| AlertFormat.SlackParts | includes/alerts.php:439-483 | two fields for a status change; for a certificate alert one plus one for a non-empty expiry date (never the issuer); for an unknown record type no title and no fields |
| AlertFormat.SlackAttachment | includes/alerts.php:429-485 | the attachment carries the severity's colour, a title exactly when its type has one, and the fields for the type |
| AlertFormat.GenericPayload | includes/alerts.php:490-496 | the record with the plugin version and site URL added and every other entry unchanged |
| AlertFormat.FormatPayload | includes/alerts.php:335-347 | Discord format for Discord URLs, otherwise Slack format for Slack URLs, otherwise the generic payload |
| AlertFormat.DiscordWinsOverSlack | includes/alerts.php:337-343 | a URL naming both services gets the Discord payload |
| AlertFormat.StatusChangeColors | includes/alerts.php:39-46 | a `DOWN` change is red on Discord and `danger` on Slack; a recovery is green and `good` |
| AlertFormat.SlackOmitsIssuer | includes/alerts.php:387-473 | with issuer and expiry known a certificate alert has four Discord fields but only two Slack fields |
| AlertFormat.StatusAlertLayout | includes/alerts.php:74-106 | the status e-mail lines in order: header, site, previous and new status, optional response time and error, time, link, footer |
| AlertFormat.StatusAlertRoundTrip | includes/alerts.php:105 | splitting the status e-mail on newlines gives back its lines |
| AlertFormat.SslAlertLayout | includes/alerts.php:225-255 | the certificate e-mail lines in order, with issuer and expiry only when known |
| AlertFormat.SslAlertRoundTrip | includes/alerts.php:254 | splitting the certificate e-mail on newlines gives back its lines |
| Alerts.WebhookMessages | includes/alerts.php:287-316 | one request to the URL with the formatted payload exactly when the URL is non-empty and valid, none otherwise |
| Alerts.MailMessages | includes/alerts.php:111-131 | one mail to the alert recipient exactly when there is one, none otherwise |
| Alerts.StatusChangeSends | includes/alerts.php:15-69 | invalid input or a missing site sends nothing; otherwise at most a mail to the recipient first and a webhook request last, and the request is sent exactly when a valid webhook URL is configured |
| Alerts.SslMarker | includes/alerts.php:180 | the marker key starts with `ssl_warning_` |
| Alerts.SslMarkerInjective | includes/alerts.php:180 | different sites never share a marker |
| Alerts.SslAlertAtMostDaily | includes/alerts.php:180-206 | after an alert, another for the same site within a day sends nothing and changes nothing; after a day it is sent again |
| Alerts.SslMarkersIndependent | includes/alerts.php:180-206 | one site's certificate alert never suppresses another's |
| Alerts.Dispatcher.constructor | includes/alerts.php:15-69 | starts with the given transient store and nothing sent |
| Alerts.Dispatcher.SendEmailAlert | includes/alerts.php:111-131 | appends the mail, if any, and reports success exactly when there is a recipient and delivery succeeded |
| Alerts.Dispatcher.SendWebhook | includes/alerts.php:287-330 | appends the request, if any, and reports success exactly for a sent request answered with 200..299 |
| Alerts.Dispatcher.HandleStatusChange | includes/alerts.php:15-69 | appends exactly the mail and webhook request of the status change |
| Alerts.Dispatcher.HandleSslExpiring | includes/alerts.php:163-220 | appends exactly the certificate alert's messages and sets the site's one-day marker when it sends |
| Alerts.Dispatcher.TestWebhook | includes/alerts.php:501-524 | an empty URL is refused without sending; otherwise the test payload is posted and success is reported exactly when the service answered 2xx |
| Cron.MergeSchedules | includes/cron.php:15-41 | every existing schedule is kept and the three plugin schedules are added only when missing |
| Cron.MergeSchedulesIdempotent | includes/cron.php:15-41 | registering the schedules twice equals registering them once |
| Cron.CronSchedules | includes/cron.php:15-41 | the filter returns the merged schedules |
| Cron.ScheduleName | includes/cron.php:54-59 | thirty seconds exactly up to half a minute, one minute exactly at 1, five minutes otherwise |
| Cron.BatchSizeChoice | includes/cron.php:112-117 | 5 sites at intervals up to one minute, 10 above, and the very-fast size 3 never, since its branch is unreachable |
| Cron.SanitizedIntervalSchedule | includes/cron.php:54-59 | a sanitised interval (5..60) always selects the five-minute schedule and the default batch size |
| Cron.DefaultIntervalSchedule | includes/cron.php:54-59 | the default interval selects the five-minute schedule and the default batch size |
| Cron.CountsCoverBatch | includes/cron.php:138-179 | every site in a batch is counted once, as checked or failed, in a run and in a manual check |
| Cron.RunCheckedAtMostManual | includes/cron.php:138-179 | the cron run never counts more successes than the manual check, and the same number exactly when every manual success is a run success |
| Cron.ProbedUrlsAppend | includes/cron.php:138-179 | the probed URLs of two call logs in sequence are those of each in turn |
| Cron.Urls | includes/cron.php:141 | the URLs of the sites, in order |
| Cron.BatchProbesEverySiteInOrder | includes/cron.php:138-141 | a batch probes every site's URL once, in the order selected |
| Cron.UpdatedIffValid | includes/cron.php:144-156 | a site is written to the database exactly when it is in the batch and its probe returned a well-formed result |
| Cron.RealProbeAlwaysUpdates | includes/cron.php:141-156 | with the real website check as probe, each site is probed and then updated |
| Cron.LockLifetime | includes/cron.php:213-229 | a released lock is never held; a fresh lock is held for its full five minutes |
| Cron.Scheduler.constructor | includes/cron.php:97-206 | starts with the given transient store, no calls and no last run |
| Cron.Scheduler.SetCronLock | includes/cron.php:220-222 | stores the lock with a five-minute lifetime |
| Cron.Scheduler.ReleaseCronLock | includes/cron.php:227-229 | deletes the lock |
| Cron.Scheduler.CheckBatch | includes/cron.php:138-179 | probes and updates the batch in order and returns the checked and failed counts |
| Cron.Scheduler.RunChecks | includes/cron.php:97-206 | a run while locked changes nothing; otherwise it selects a batch sized by the interval, checks it, records the last run only for a non-empty batch, and always ends with the lock released |
| Cron.Scheduler.ManualCheckAll | includes/cron.php:236-286 | no sites gives the no-sites report; otherwise every site is probed in order and the report counts total, checked and failed; the lock is never touched |
| SettingsPage.ProcessSettingsForm | includes/admin/settings-page.php:52-89 | the row always holds the webhook URL, interval 5, cooldown 24 and the version; an empty field stores the empty URL; a non-empty rejected URL returns that error and stores nothing |
| SettingsPage.FormAlwaysStoresDefaultInterval | includes/admin/settings-page.php:68-73 | after saving the form the interval read back is always 5 minutes |

## Left out

- Network access (`wp_remote_get`, `wp_remote_post`, the TLS socket and `openssl_x509_parse`) and `wp_mail` are inputs: their outcomes are parameters and the model records what is sent.
- The database layer (`includes/database.php`: site lookup, batch selection, status update, duplicate-URL query) is not part of this model; its results are parameters.
- Floating point: response times are whole milliseconds, uptime is kept in hundredths of a percent, and the batch duration in seconds is not modelled.
- HTML markup, escaping for output, translation and `sprintf` layout of badges and notices are reduced to the values they show.
- Logging (`lm_monitor_log`) and the debug switch have no effect on the model.
- Exceptions inside the alert handlers are caught and logged only; the handlers model the normal path.
- E-mail headers (`lm_monitor_get_email_headers`), `lm_monitor_format_bytes` and `lm_monitor_get_user_name` are left out or taken as input values.
- Date formatting in the alerts (`current_time`, `date_i18n`, the Discord embed's `gmdate('c', …)`) is provided by the `Wp` record as ready-made strings; the certificate expiry and start dates that `lm_monitor_get_ssl_info` formats with `gmdate` are kept as the Unix timestamps they format.
- Schedule registration and removal (`wp_schedule_event`, `lm_monitor_clear_cron`), `lm_monitor_get_cron_status` and the admin notices are WordPress side effects not modelled.
- Cron.ScheduleName, Cron.BatchSize: the interval is compared as a number; non-numeric setting strings are not modelled.
- Concurrency between overlapping cron runs is not modelled; the lock is modelled as the transient it is.
- Cron.Scheduler.ManualCheckAll models the path of an administrator; the access check (`lm_monitor_verify_admin_access`) is left to callers.
- The order of keys in PHP arrays and the JSON encoding of payloads are not modelled.
- Validator.ValidateUrl, Validator.ValidateEmail, Validator.ValidateWebhookUrl: lengths count characters, not UTF-8 bytes as `strlen` does.
- The plugin bootstrap (`lm-monitor.php`), AJAX handlers and admin views are outside the core.
