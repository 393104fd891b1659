/**
 * The configuration built for tracking a request's progress: which state
 * labels mean "keep waiting" and "finished", how long to wait in all, how
 * often to poll and how many not-found answers to tolerate. Durations are
 * Go durations: integer counts of nanoseconds.
 */
module WaitConf {
  import opened Wrappers
  import opened RequestTracking

  /** Labels of requests still being worked on. */
  const PendingStates: seq<string> := ["RUNNING", "QUEUED"]

  /** Labels of finished requests. */
  const TargetStates: seq<string> := [StatusDone]

  const Second: int := 1000000000
  const Minute: int := 60 * Second
  const PollInterval: int := 10 * Second
  const InitialDelay: int := 10 * Second
  const NotFoundChecks: int := 600

  /**
   * A per-kind timeout table; a kind left unset is `None`. `read` is listed
   * because the framework's record has it.
   */
  datatype ResourceTimeout = ResourceTimeout(
    create: Option<int>,
    read: Option<int>,
    update: Option<int>,
    delete: Option<int>,
    defaultTimeout: Option<int>)

  /** The package's default-timeout table: 60 minutes for every kind it sets. */
  const ResourceDefaultTimeouts: ResourceTimeout := ResourceTimeout(
    create := Some(60 * Minute),
    read := None,
    update := Some(60 * Minute),
    delete := Some(60 * Minute),
    defaultTimeout := Some(60 * Minute))

  /**
   * The record the polling loop is driven by. `client` and `location` are
   * what the refresh closure captures; the closure itself is `RefreshNow`.
   */
  datatype StateChangeConf = StateChangeConf(
    pending: seq<string>,
    target: seq<string>,
    client: StatusLookup,
    location: string,
    timeout: int,
    minTimeout: int,
    delay: int,
    notFoundChecks: int)
  {
    /**
     * What a call of the refresh closure returns. The captured `client` is
     * one fixed answer per path, so every call returns the same triple.
     */
    function RefreshNow(): RefreshTriple {
      RefreshResult(location, client)
    }
  }

  /**
   * Builds the wait policy for tracking the request at `location`.
   * `resourceTimeout` is the resource's timeout lookup by kind name; the
   * timeout of kind `timeoutType` is taken from it. Everything else is fixed.
   */
  function GetStateChangeConf(
    client: StatusLookup,
    resourceTimeout: string -> int,
    location: string,
    timeoutType: string): (c: StateChangeConf)
    ensures c.pending == ["RUNNING", "QUEUED"] && c.target == ["DONE"]
    ensures forall s :: s in c.pending ==> s !in c.target
    ensures c.timeout == resourceTimeout(timeoutType)
    ensures c.minTimeout == 10 * 1000000000 && c.delay == 10 * 1000000000
    ensures c.notFoundChecks == 600
    ensures c.location == location
    ensures c.RefreshNow() == RefreshResult(location, client)
  {
    StateChangeConf(
      pending := PendingStates,
      target := TargetStates,
      client := client,
      location := location,
      timeout := resourceTimeout(timeoutType),
      minTimeout := PollInterval,
      delay := InitialDelay,
      notFoundChecks := NotFoundChecks)
  }

  /** Every kind the table sets is 3600 seconds; `read` is unset. */
  lemma DefaultTimeoutsAreOneHour()
    ensures ResourceDefaultTimeouts.create == Some(3600 * 1000000000)
    ensures ResourceDefaultTimeouts.update == Some(3600 * 1000000000)
    ensures ResourceDefaultTimeouts.delete == Some(3600 * 1000000000)
    ensures ResourceDefaultTimeouts.defaultTimeout == Some(3600 * 1000000000)
    ensures ResourceDefaultTimeouts.read == None
  {
  }

  /**
   * Two policies built for different locations, timeout lookups or kinds
   * differ only in the captured location and client and in the timeout.
   */
  lemma PolicyIndependentOfLocation(
    client1: StatusLookup, client2: StatusLookup,
    resourceTimeout1: string -> int, resourceTimeout2: string -> int,
    location1: string, location2: string,
    timeoutType1: string, timeoutType2: string)
    ensures var c1 := GetStateChangeConf(client1, resourceTimeout1, location1, timeoutType1);
            var c2 := GetStateChangeConf(client2, resourceTimeout2, location2, timeoutType2);
            && c1.pending == c2.pending && c1.target == c2.target
            && c1.minTimeout == c2.minTimeout && c1.delay == c2.delay
            && c1.notFoundChecks == c2.notFoundChecks
  {
  }

  /**
   * The refresh closure and the policy's tables agree: an error-free answer
   * carries a target label exactly when it carries the request, a pending
   * label only while the request is in progress, and FAILED is never a label
   * of an error-free answer.
   */
  lemma RefreshAgreesWithTables(
    client: StatusLookup, resourceTimeout: string -> int,
    location: string, timeoutType: string)
    ensures var c := GetStateChangeConf(client, resourceTimeout, location, timeoutType);
            var t := c.RefreshNow();
            && (t.err.None? ==> (t.state in c.target <==> t.result.Some?))
            && (t.err.None? && t.state in c.pending ==> Refresh(location, client).InProgress?)
            && (t.err.None? ==> t.state != StatusFailed)
  {
  }
}
