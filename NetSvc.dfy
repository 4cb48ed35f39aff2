/** The retry policy of `check_health` (app/services/net_svc.py). The HTTP GET
    of each attempt is an oracle: `outcome(k)` is what attempt number k + 1
    observed, a status code or a request exception. Sleeping, timing and the
    progress bar are outside the model. */
module NetSvc {
  import opened Wrappers
  import opened PyValues

  datatype Attempt = Responded(statusCode: int) | RequestFailed(reason: string)

  /** The dict check_health returns: {"success", "status_code", "message"}. */
  datatype HealthResult = HealthResult(success: bool, statusCode: Option<int>, message: string)

  predicate Is2xx(a: Attempt)
  {
    a.Responded? && 200 <= a.statusCode < 300
  }

  /** The message of a successful check; the source appends the elapsed time. */
  const HealthyMessage := "Service is healthy"

  /** The record a failed attempt leaves in `error`. */
  function FailureOf(a: Attempt): (r: HealthResult)
    requires !Is2xx(a)
    ensures !r.success
    ensures a.Responded? ==> r.statusCode == Some(a.statusCode) && r.message == "Service returned non-2xx status"
    ensures a.RequestFailed? ==> r.statusCode.None? && r.message == "Service is not reachable: " + a.reason
  {
    match a
    case Responded(code) => HealthResult(false, Some(code), "Service returned non-2xx status")
    case RequestFailed(e) => HealthResult(false, None, "Service is not reachable: " + e)
  }

  /** check_health: at most `maxRetries` attempts, stopping at the first 2xx one;
      when every attempt fails, the record of the last one is returned. With
      fewer than one attempt, `error` is never bound and reading it raises. */
  method CheckHealth(outcome: nat -> Attempt, maxRetries: int) returns (r: Result<HealthResult, PyError>, attempts: nat)
    ensures attempts <= if maxRetries < 0 then 0 else maxRetries
    ensures maxRetries < 1 ==> r == Err(UnboundLocalError) && attempts == 0
    ensures (r.Ok? && r.value.success) <==> exists j :: 0 <= j < maxRetries && Is2xx(outcome(j))
    ensures r.Ok? && r.value.success ==>
      && attempts >= 1
      && Is2xx(outcome(attempts - 1))
      && (forall j :: 0 <= j < attempts - 1 ==> !Is2xx(outcome(j)))
      && r.value == HealthResult(true, Some(outcome(attempts - 1).statusCode), HealthyMessage)
    ensures maxRetries >= 1 && (forall j :: 0 <= j < maxRetries ==> !Is2xx(outcome(j))) ==>
      attempts == maxRetries && r == Ok(FailureOf(outcome(maxRetries - 1)))
  {
    var error: Option<HealthResult> := None;
    attempts := 0;
    var attempt := 1;
    while attempt <= maxRetries
      invariant 1 <= attempt && attempts == attempt - 1
      invariant attempt <= if maxRetries < 1 then 1 else maxRetries + 1
      invariant forall j :: 0 <= j < attempt - 1 ==> !Is2xx(outcome(j))
      invariant attempt == 1 <==> error.None?
      invariant attempt > 1 ==> !Is2xx(outcome(attempt - 2)) && error == Some(FailureOf(outcome(attempt - 2)))
    {
      attempts := attempt;
      var response := outcome(attempt - 1);
      if Is2xx(response) {
        return Ok(HealthResult(true, Some(response.statusCode), HealthyMessage)), attempts;
      }
      error := Some(FailureOf(response));
      attempt := attempt + 1;
    }
    if error.None? {
      return Err(UnboundLocalError), attempts;
    }
    r := Ok(error.value);
  }
}
