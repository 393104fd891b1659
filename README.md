# ProfitBricks provider: request tracking and configuration, in Dafny

This project models the decision logic of the ProfitBricks Terraform
provider's `provider.go`:

- **Request-status refresh** (`RequestTracking`). `provider.go` builds the
  configuration used to track the progress of an asynchronous API request.
  One poll is handled by its refresh closure. The closure refuses an empty request
  path. Otherwise it queries the request's status once and turns the answer
  into one of five outcomes: path error, transport error, remote failure
  (status `FAILED`), done (status `DONE`, with the request as payload), or
  still in progress (any other status, labelled with that status). The model
  also gives the closure's Go return values, result / state label / error, as
  `RefreshTriple`. The SDK's status query is the input function
  `lookup: string -> StatusQuery`, so the model can say which path is queried.
- **Wait policy** (`WaitConf`). The tracking configuration has pending
  states `RUNNING`, `QUEUED`, the target state `DONE`, a 10 s minimum poll
  interval, a 10 s initial delay and 600 tolerated not-found checks. Its
  timeout is the resource's timeout for the requested kind. `provider.go`
  also defines a default-timeout table of 60 minutes for create, update,
  delete and default. Durations are Go durations: integer nanoseconds.
- **Credential validation and endpoint cleaning** (`ProviderConfig`). A token
  and a username/password pair are mutually exclusive. Without a token, the
  username is checked first and then the password, and each has its own
  message. On success the configuration record holds the cleaned endpoint,
  which is the endpoint with one trailing `/` removed.

`Wrappers` holds the `Option` and `Result` datatypes.

A request reported `FAILED` with an empty message yields the error text
"Request failed with following error: " with nothing after it. The text is
never empty because of that prefix (`RequestTracking.RefreshResult`).

Go's `len` and indexing in `cleanURL` count bytes, while the model works on
characters. The two agree, because `/` is a one-byte character in UTF-8 and
never appears inside a multi-byte character.

## Model

| member | source | states |
|---|---|---|
| `ProviderConfig.CleanURL` | profitbricks/provider.go:109-117 | the result is a prefix of the input, shorter by at most one; it differs from the input exactly when the input is longer than one character and ends in '/', and then the input is the result plus "/" |
| `ProviderConfig.CleanURLFixedPoints` | profitbricks/provider.go:110-117 | "" and "/" are left unchanged |
| `ProviderConfig.CleanURLIdempotentIff` | profitbricks/provider.go:110-117 | cleaning twice equals cleaning once exactly when the input does not end in "//" after at least one more character |
| `ProviderConfig.CleanURLNotIdempotent` | profitbricks/provider.go:110-117 | there is an input (e.g. "a//") for which cleaning again changes the result |
| `ProviderConfig.CredentialError` | profitbricks/provider.go:84-96 | the credential check passes exactly for token alone, or for no token with both username and password; otherwise it gives the missing-username message first, then the missing-password message, and with a token the conflict message |
| `ProviderConfig.ProviderConfigure` | profitbricks/provider.go:78-104 | succeeds exactly under the credential rule; each rejection carries its own message, in the source's order; on success the record holds the cleaned endpoint and the given token, retries, username and password unchanged (empty strings when a token is used) |
| `ProviderConfig.RejectionMessagesDistinct` | profitbricks/provider.go:86-94 | the three rejection messages are pairwise different |
| `RequestTracking.Refresh` | profitbricks/provider.go:135-159 | path error exactly for the empty path; transport error exactly when the query for the path fails, carrying its text; remote failure exactly for status FAILED, carrying the remote message; done exactly for status DONE, carrying the request; otherwise in progress with the raw status, which is neither FAILED nor DONE |
| `RequestTracking.ToTriple` | profitbricks/provider.go:139-157 | an error is returned exactly for the three failure outcomes, and then with no result and an empty label; path errors carry the fixed message, the other two the fixed prefix plus their text; done returns the request with label DONE; in progress returns its label with no result |
| `RequestTracking.RefreshResult` | profitbricks/provider.go:135-159 | an error comes with no result, an empty label and a non-empty message; an error-free answer comes from a successful query for the path and is labelled with its raw status; a result is returned exactly when there is no error and the label is DONE, and it is the queried request |
| `RequestTracking.EmptyPathConsultsNothing` | profitbricks/provider.go:139-141 | an empty path gives the path error whatever the status query would answer |
| `RequestTracking.RefreshQueriesOnlyItsPath` | profitbricks/provider.go:143 | for any path the outcome depends only on the query's answer for that path |
| `RequestTracking.UnknownStatusIsInProgress` | profitbricks/provider.go:153-157 | any status other than FAILED and DONE returns no result, the raw status as label, and no error |
| `RequestTracking.TransportAndRemoteFailureLookAlike` | profitbricks/provider.go:145-151 | for every non-empty path and text, a failed query and a FAILED request can produce identical return values |
| `RequestTracking.TransportAndRemoteFailureIndistinguishable` | profitbricks/provider.go:145-151 | every failed query and every FAILED request with the same text give identical return values, whatever else the lookups answer |
| `WaitConf.GetStateChangeConf` | profitbricks/provider.go:120-132 | pending is [RUNNING, QUEUED] and target is [DONE], and they are disjoint; the timeout is the resource's timeout for the given kind; minimum interval and delay 10 s (in nanoseconds), 600 not-found checks; the captured refresh is the refresh of the given location |
| `WaitConf.DefaultTimeoutsAreOneHour` | profitbricks/provider.go:172-178 | create, update, delete and default timeouts are 3600 s (in nanoseconds); read is unset |
| `WaitConf.PolicyIndependentOfLocation` | profitbricks/provider.go:120-132 | the states, interval, delay and not-found checks are the same whatever the client, location, timeouts or kind |
| `WaitConf.RefreshAgreesWithTables` | profitbricks/provider.go:149-170 | for an error-free refresh, the label is a target state exactly when a result is returned; a pending label means the request is in progress; FAILED is never an error-free label |

## Left out

- `Provider()`: the schema declarations, the resource map and the data source map are declarative wiring to constructors that are not part of this model.
- The polling loop itself is not modelled: its sleeping, wall-clock timeout, not-found counting and handling of unexpected states belong to Terraform's `resource.StateChangeConf`, which is not part of this model.
- `client.GetRequestStatus` is a network call. It is the input function `lookup`, and the request payload keeps only an `id` besides its status and message. The lookup gives one fixed answer per path, so `StateChangeConf.RefreshNow` returns the same triple on every call, while the program queries the API again on each call; how the remote status changes between polls is not modelled.
- `config.Client()` builds the SDK client and is not modelled. `ProviderConfigure` returns the configuration record instead of the client.
- `d.Timeout(timeoutType)` is framework code. It is the input function `resourceTimeout`, and how the framework falls back to a default-timeout table is not modelled.
- `d.GetOk` is framework code. An absent setting, for which `ok` is false, is `None`, and the record then receives the empty string. The framework's rule that an empty value also counts as absent is left to the caller of the model.
- The runtime type assertion on the client handle, the environment-variable defaults and the deprecated `retries` setting (whose value is only copied) are not modelled.
- Concurrency across several tracked requests belongs to the orchestration framework and is not modelled.
- Go durations are 64-bit nanosecond counts; here they are unbounded integers of nanoseconds, so overflow of a configured timeout is not modelled.
