/**
 * A monitored site as the site store returns it. The store itself (includes/database.php)
 * is not part of this model: its lookups and updates enter the model as inputs.
 */
module Sites {
  import opened Wrappers

  datatype Site = Site(
    id: nat,
    url: string,
    notifyEmail: string,             // "" when none is set
    status: string,                  // "" before the first check
    responseTime: Option<nat>,       // milliseconds
    sslExpiryDate: Option<string>,
    sslIssuer: Option<string>,
    sslDaysRemaining: Option<int>,
    checkCount: nat,
    downCount: nat
  )
}
