/**
 * The save step of the settings form (includes/admin/settings-page.php): which settings
 * row the form writes. The request, nonce and capability handling are not modelled.
 */
module SettingsPage {
  import opened Wrappers
  import opened Text
  import opened Platform
  import opened Helpers
  import opened Validator
  import C = Constants

  /** The row the form stores: the webhook URL given, and always the default interval and cooldown. */
  function SettingsRow(webhookUrl: string): Settings {
    map[
      "webhook_url" := Str(webhookUrl),
      "check_interval" := Int(C.DefaultCheckInterval),
      "notification_cooldown" := Int(C.DefaultCooldown),
      "version" := Str(C.Version)
    ]
  }

  /**
   * `lm_monitor_process_settings_form`; `posted` is the submitted webhook field, if any.
   * An empty field disables the webhook; any other value must pass the webhook validator.
   */
  function ProcessSettingsForm(env: Env, posted: Option<string>): (r: Result<Settings, WebhookError>)
    ensures r.Ok? ==> r.value.Keys == {"webhook_url", "check_interval", "notification_cooldown", "version"}
    ensures r.Ok? ==> r.value["check_interval"] == Int(5) && r.value["notification_cooldown"] == Int(24)
    ensures r.Ok? && posted.Some? && !PhpEmpty(env.sanitizeText(posted.value)) ==>
      ValidateWebhookUrl(env, env.sanitizeText(posted.value)).WebhookAccepted? &&
      r.value["webhook_url"] == Str(ValidateWebhookUrl(env, env.sanitizeText(posted.value)).url)
    ensures r.Ok? && (posted.None? || PhpEmpty(env.sanitizeText(posted.value))) ==>
      r.value["webhook_url"] == Str(if posted.None? then "" else env.sanitizeText(posted.value))
    ensures r.Err? <==> posted.Some? && !PhpEmpty(env.sanitizeText(posted.value)) &&
                        ValidateWebhookUrl(env, env.sanitizeText(posted.value)).WebhookRejected?
  {
    var webhook := match posted case Some(p) => env.sanitizeText(p) case None => "";
    if PhpEmpty(webhook) then Ok(SettingsRow(webhook))
    else
      match ValidateWebhookUrl(env, webhook)
      case WebhookRejected(e) => Err(e)
      case WebhookAccepted(url, _) => Ok(SettingsRow(url))
  }

  /** Whatever the form stores, the settings read back have a check interval of 5 minutes. */
  lemma FormAlwaysStoresDefaultInterval(env: Env, posted: Option<string>)
    requires ProcessSettingsForm(env, posted).Ok?
    ensures WithDefaults(ProcessSettingsForm(env, posted).value)["check_interval"] == Int(5)
  {
  }
}
