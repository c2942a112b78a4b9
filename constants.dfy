/** The plugin's fixed configuration values (includes/constants.php, lm-monitor.php). */
module Constants {

  const Version: string := "2.0.0"

  // Cron schedule intervals, in seconds
  const CronFiveMinutes: nat := 300
  const CronOneMinute: nat := 60
  const CronThirtySeconds: nat := 30

  // Sites per scheduled batch
  const BatchSizeDefault: nat := 10
  const BatchSizeFast: nat := 5
  const BatchSizeVeryFast: nat := 3

  // Lifetime of the cron lock and of an SSL suppression marker, in seconds
  const CronLockDuration: nat := 300
  const DayInSeconds: nat := 86400

  // Response time tiers, in milliseconds
  const ResponseFast: nat := 1000
  const ResponseSlow: nat := 3000
  const ResponseVerySlow: nat := 5000

  // Certificate expiry tiers, in days
  const SslCriticalDays: int := 7
  const SslWarningDays: int := 30
  const SslPort: int := 443

  // Validation limits, in characters
  const UrlMaxLength: nat := 255
  const EmailMaxLength: nat := 100
  const WebhookMaxLength: nat := 500

  // Default settings
  const DefaultCheckInterval: int := 5   // minutes
  const DefaultCooldown: int := 24       // hours

  // HTTP status code ranges
  const HttpSuccessMin := 200
  const HttpSuccessMax := 299
  const HttpRedirectMin := 300
  const HttpRedirectMax := 399
  const HttpClientErrorMin := 400
  const HttpClientErrorMax := 499
  const HttpServerErrorMin := 500
  const HttpServerErrorMax := 599

  // Uptime tiers, in hundredths of a percent (99.9%, 99.0%, 95.0%)
  const UptimeExcellent: int := 9990
  const UptimeGood: int := 9900
  const UptimeFair: int := 9500

  // Display colours
  const ColorSuccess: string := "#10b981"
  const ColorError: string := "#ef4444"
  const ColorWarning: string := "#f59e0b"
  const ColorInfo: string := "#3b82f6"
  const ColorGray: string := "#9ca3af"

  // Discord embed colours
  const DiscordBlue: int := 0x3B82F6
  const DiscordGreen: int := 0x10B981
  const DiscordRed: int := 0xEF4444
  const DiscordOrange: int := 0xF59E0B

  // URL scheme prefixes, lower case
  const HttpPrefix: string := "http://"
  const HttpsPrefix: string := "https://"

  const BlockedHosts: set<string> := {"localhost", "127.0.0.1", "0.0.0.0"}
  const DisposableDomains: set<string> := {"tempmail.com", "10minutemail.com", "guerrillamail.com"}
}
