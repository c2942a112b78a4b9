/**
 * The WordPress and PHP library functions the plugin calls but does not define.
 * Each is an uninterpreted function: the model never assumes anything about
 * what they compute, only passes their answers along.
 */
module Platform {
  import opened Wrappers

  datatype Env = Env(
    escUrlRaw: string -> string,         // esc_url_raw
    isValidUrl: string -> bool,          // filter_var($u, FILTER_VALIDATE_URL) succeeds
    parseHost: string -> Option<string>, // the 'host' component of parse_url / wp_parse_url
    parsePort: string -> Option<int>,    // the 'port' component of parse_url
    isIp: string -> bool,                // filter_var($h, FILTER_VALIDATE_IP) succeeds
    isPublicIp: string -> bool,          // ... with FILTER_FLAG_NO_PRIV_RANGE | FILTER_FLAG_NO_RES_RANGE
    urlExists: string -> bool,           // lm_monitor_url_exists: the site store already holds the URL
    sanitizeEmail: string -> string,     // sanitize_email
    isEmail: string -> bool,             // is_email
    sanitizeText: string -> string,      // sanitize_text_field
    intval: string -> int                // intval on a string
  )
}
