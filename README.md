# gualogger core, modelled in Dafny

gualogger is a gateway. It subscribes to nodes of an OPC UA server and hands
every value change to a set of exporters, such as a websocket server. This
project models three parts of it:

- **The OPC UA supervisor** (`opcua.dfy`, module `OpcUa`).
  - It makes the first connection and subscription, then polls a keepalive
    timestamp.
  - Each missed keepalive costs one retry from a bounded budget. A successful
    reconnect resets the count. Once the budget is spent the loop stops.
  - The data-change callback drops bad messages. It records keepalive samples
    of node `i=2258` and classifies every other value into a datatype tag
    before forwarding it.
  - `CreateClient` builds the option list from the configuration.
  - The `Subs` registry records active subscriptions.
  - The supervisor's state is a pure value (`Supervision`). The functions
    `Started`, `PollStep`, `Notify` and `Run` step that value, and the lemmas
    are stated about them. The class `Supervisor` keeps the same globals in
    fields, and each of its methods is proved against the matching function.
- **The export manager** (`manager.dfy`, module `Export`). It registers the
  configured exporters, initialises them (stopping at the first failure) and
  fans each payload out to all of them, stamped with the server endpoint.
  Go's map order is unspecified, so each loop picks an arbitrary key it has
  not yet visited.
- **The websocket exporter's hub** (`websocket.dfy`, module `Websocket`).
  - Clients are admitted unauthenticated.
  - A client becomes authenticated when it sends `authentication_message`
    carrying the shared secret: Base64 of `username:password`.
  - A sweep removes clients still unauthenticated after 10 seconds.
  - Payloads are written only to authenticated clients.
  - A client object stands for the Go `*client` reference that keys the map.
- Supporting modules:
  - `base64.dfy`: the standard Base64 alphabet with padding (section 4 of
    RFC 4648). The decoder is proved to invert the encoder.
  - `payloads.dfy`: the payload record and Go's dynamic value types.
  - `config.dfy`: the configuration records.
  - `wrappers.dfy`: Option, Result and Outcome.

All times are nanoseconds, the unit of Go's `time.Duration`, held as unbounded integers. Everything the
network, the protocol library or the clock would answer is a parameter of the
model: an endpoint list, a connect outcome, the time of a poll, the outcome of
a websocket write.

Where the code differs from what its design suggests, the model follows the
code:

- The supervisor's teardown of the old session (`opcua.go:66-69`) is guarded by
  `con_active` right after `con_active` was set to false. It can never run, so
  the model does not tear anything down either.
- Re-authenticating an authenticated client leaves it authenticated.
- The websocket `Publish` returns the error of whichever failed write came last
  in map order. The model promises only that the error belongs to some failed
  write.
- `SetupPubHandlers` stops at the first failing exporter in map order, so which
  exporter's error is reported depends on that order.

## Model

| member | source | states |
|---|---|---|
| OpcUa.Classify | opcua.go:178-205 | the tag is "Str" exactly for uint64, string and every other type the switch does not name |
| OpcUa.ClassifyFollowsTable | opcua.go:178-205 | the tag of every Go value is the switch table's entry for its type name, and "Str" off the table |
| OpcUa.Route | opcua.go:172-213 | a message is dropped iff it has an error or a non-OK status; a good message is a keepalive iff its node is i=2258, and forwarded otherwise, with id, name, timestamp, value and tag taken from the message |
| OpcUa.BaseOptions | opcua.go:109-115 | the five fixed options carry no authentication and no certificate option |
| OpcUa.AuthOptions | opcua.go:117-128 | user name and password plus a user-name token iff the type is "User&Password"; nothing for "Certificate"; anonymous auth and token iff the type is neither |
| OpcUa.CertificateOptions | opcua.go:130-139 | the certificate file and key file options are present iff the policy is not "None" |
| OpcUa.Options | opcua.go:109-139 | the client options begin with the five base options, and an option is present iff it is a base, auth or certificate option |
| OpcUa.OptionsAuthSelection | opcua.go:117-128 | in the full option list, each authentication option is present iff the authentication type selects it, and "Certificate" yields none |
| OpcUa.OptionsCertificateSelection | opcua.go:130-139 | in the full option list, the certificate and key paths are present iff the policy is not "None" |
| OpcUa.CreateClient | opcua.go:93-153 | a discovery error is returned as is; an empty endpoint list gives "no endpoints found"; success iff endpoints exist, the key pair (needed only for a secured policy with auto-creation) was created, and the session connected; the client gets the configured URL and options |
| OpcUa.MonitoredItems | opcua.go:224-230 | the registration loop keeps, in order, only configured node ids, and no more than were configured |
| OpcUa.MonitoredItemsExact | opcua.go:224-230 | a node id is monitored iff some `AddMonitorItems` call for it succeeded; a failure skips only that call |
| OpcUa.Started | opcua.go:22-44 | the budget is the configured retries; the loop runs iff the first connection and monitor both succeed, and then the connection is active with a client |
| OpcUa.StartedInv | opcua.go:22-44 | from a zero miss counter, the start establishes the supervisor invariant |
| OpcUa.PollStep | opcua.go:46-89 | no miss changes nothing; a miss increments the counter and stops the loop iff the counter passes the budget; otherwise a successful reconnect resets the counter and reactivates the connection, and a failed one leaves it inactive |
| OpcUa.Notify | opcua.go:172-213 | only a keepalive moves the keepalive time, to the time the callback runs; at most one payload is published, exactly when the message is forwarded, and it is then the routed payload with the message's id, name, timestamp, value and tag |
| OpcUa.Run | opcua.go:46-89 | a stopped loop does nothing; the budget never changes; no more payloads than events |
| OpcUa.RunPreservesInv | opcua.go:46-89 | while running, the miss counter is never negative and stays within the budget or is zero (a negative budget with a successful first connection runs at zero), and an active connection has a client and no pending misses |
| OpcUa.MissStreak | opcua.go:50-86 | a streak of missed keepalives with failing reconnects counts one retry per poll, and the loop is still running iff the count stays within the budget; a stopped loop ends at budget + 1 |
| OpcUa.BudgetExhausted | opcua.go:50-60 | from a fresh connection with budget R, R failed misses keep the loop running and the next one stops it |
| OpcUa.StartFailureIsFinal | opcua.go:28-42 | when the first connection or monitor fails, no event changes anything and nothing is published |
| OpcUa.RunPublishesRouted | opcua.go:206-211 | every payload the loop publishes is the forwarded payload of one of its data-change notifications |
| OpcUa.RunNeverPublishesKeepalive | opcua.go:206-211 | no payload the loop publishes is the keepalive node, and none carries a server yet |
| OpcUa.Supervisor.constructor | opcua.go:14-20 | the globals start at their zero values with an empty registry |
| OpcUa.Supervisor.Start | opcua.go:22-44 | the object's state becomes the started state, and the registry is emptied |
| OpcUa.Supervisor.Poll | opcua.go:46-89 | the object's state becomes the poll step from the old state |
| OpcUa.Supervisor.OnDataChange | opcua.go:172-217 | only the keepalive time may change, as Notify says, and the published payloads are Notify's |
| OpcUa.Supervisor.Handle | opcua.go:46-89 | one event updates the object as Apply says; the registry is untouched |
| OpcUa.Supervisor.Supervise | opcua.go:22-91 | the final state and the published payloads are those of Run from the started state; the registry is the one the supervisor itself empties at the start |
| OpcUa.Supervisor.CreateSubscription | opcua.go:224-242 | the monitored ids are the successful registrations followed by the keepalive node; the subscription enters the registry under its id iff the keepalive item was added |
| OpcUa.Supervisor.TerminateSub | opcua.go:248-254 | that subscription's entry, and only it, leaves the registry |
| Export.Registered | manager.go:22-31 | the registry holds exactly the configured keys that the register knows, each with the register's exporter |
| Export.ExportManager.constructor | manager.go:14-19 | a new manager holds exactly the registered exporters |
| Export.ExportManager.RegisterExporters | manager.go:22-31 | the known configured exporters are added to the existing registry; unknown keys are skipped |
| Export.ExportManager.SetupPubHandlers | manager.go:35-45 | no error iff every exporter initialises; then every exporter was initialised once; on error, the last exporter tried failed with that cause and all earlier ones succeeded |
| Export.ExportManager.Publish | manager.go:47-55 | every exporter receives the payload exactly once, stamped with the server endpoint, whatever the others answer |
| Websocket.PingBeforeDeadline | handlers/websocket.go:33-34 | the ping interval is positive and shorter than the pong deadline |
| Websocket.Dispatch | handlers/websocket.go:138-157 | the read loop keeps a client iff the message is "authentication_message" with the secret as payload |
| Websocket.Secret | handlers/websocket.go:56-58 | the secret is a padded Base64 text of `username:password`, four characters per started group of three bytes, that decodes back to those bytes |
| Websocket.SecretRevealsCredentials | handlers/websocket.go:56-58 | a message authenticates iff it carries the secret, and its payload then decodes to `username:password` |
| Websocket.SecretDeterminesCredentials | handlers/websocket.go:56-58 | two credential pairs share a secret only if they join to the same `username:password` bytes |
| Websocket.Swept | handlers/websocket.go:211-216 | a client survives the sweep iff it is authenticated or younger than the grace window; an authenticated client always stays, and the flags are unchanged |
| Websocket.Hub.constructor | handlers/websocket.go:37-41 | an exporter starts with no clients and an empty secret |
| Websocket.Hub.Initialize | handlers/websocket.go:54-75 | the secret is the Base64 of `username:password`, the registry is empty, and an endpoint parse error is returned |
| Websocket.Hub.Publish | handlers/websocket.go:77-93 | the payload is written to exactly the authenticated clients; no error iff no write failed; otherwise the error is that of a failed write |
| Websocket.Hub.Upgrade | handlers/websocket.go:99-117 | a failed upgrade changes nothing; a successful one adds a new, unauthenticated client stamped with the current time |
| Websocket.Hub.AuthenticateClient | handlers/websocket.go:182-191 | a present client becomes authenticated; an absent one is not added |
| Websocket.Hub.RemoveClient | handlers/websocket.go:193-207 | the client leaves the registry, and removing an absent client changes nothing |
| Websocket.Hub.VerifyClients | handlers/websocket.go:209-218 | one pass leaves exactly the swept registry |
| Websocket.Hub.ReadMessages | handlers/websocket.go:128-158 | the loop ends iff the read deadline fails or some message is not a correct authentication; then the client is removed; otherwise, after at least one message, a present client is authenticated, and with no message nothing changes |
| Websocket.Hub.WriteMessages | handlers/websocket.go:160-180 | the loop ends iff a ping fails, and then removes the client; otherwise the registry is unchanged |
| Base64.Encode | handlers/websocket.go:58 | the encoding has four characters per started group of three bytes |
| Base64.EncodeTestVectors | handlers/websocket.go:58 | the encoder gives the test vectors of section 10 of RFC 4648, from "" to "foobar" |
| Base64.DecodeEncode | handlers/websocket.go:58 | decoding the encoding of any byte string gives the bytes back |
| Base64.EncodeInjective | handlers/websocket.go:58 | distinct byte strings have distinct encodings |

## Left out

- Goroutines, the manager's lock and the unlocked map reads in the websocket `Publish` and `authenticateClient` (`handlers/websocket.go:81`, `:183`) are not modelled. Each operation is one atomic step.
- The gopcua library is not modelled. `GetEndpoints`, `NewClient`/`Connect`, `NewNodeMonitor`, `Subscribe` and `AddMonitorItems` are given outcomes.
- `SelectEndpoint` and `MessageSecurityModeFromString` are not modelled. The mode is kept as its configured text, and `SecurityFromEndpoint` records only the token type.
- `MustParseNodeID` panicking on a malformed node id is not modelled.
- Clocks and sleeps are not modelled: the poll times are inputs. This includes the loop's sleep of `3 * interval` nanoseconds (`opcua.go:48`), the 60-second pause in `InitSubs`, the 30-second pause between sweeps (`handlers/websocket.go:220`), and the ticker.
- The text of the `SetupPubHandlers` error (`manager.go:38`) is not built; the error carries the exporter name and the cause it is formatted from.
- `Subscription.Unsubscribe` and the delivered/dropped counters logged by `TerminateSub` are left out, as is waiting on the context's `Done` channel.
- Cancelling contexts is not modelled. `running` becoming false stands for the loop's `break` (`opcua.go:59`); the `TerminateSub` that the `cancel()` at `opcua.go:57` triggers in the running subscription is not part of the loop model.
- OpcUa.Supervisor.Supervise: the subscription that each successful `InitSubs` starts (`opcua.go:39`, `:80`, `:163`) runs `CreateSubscription` beside the loop and is not an event of it, so `subs == map[]` covers only the supervisor's own reset at `opcua.go:26`. In Go the registry gains an entry at `opcua.go:240` per successful (re)connect, and the entries of superseded connections stay, since the old `cancel` is overwritten without being called (`opcua.go:78`). `CreateSubscription` and `TerminateSub` model those registry steps one at a time.
- Durations are unbounded `nat`/`int` values. Go's `time.Duration` is an int64, so `time.Duration(6*interval)*time.Second` (`opcua.go:50`) wraps for intervals above about 1.5·10⁹ seconds, and `KeepaliveTimeout` does not.
- Float values carry no number, because nothing in the core depends on it.
- Websocket and HTTP I/O is not modelled: upgrading, JSON encoding, close frames, `ListenAndServe` with its `os.Exit`, and the pong handler that re-arms the read deadline. Each read and write is given an outcome.
- The websocket exporter's `Shutdown` returns nil and has no effect, so it has no member.
- Logging is left out.
- The certificate generation in `cert.go` is reduced to one outcome.
- Configuration loading (`conf.go`, `internal/configuration/conf.go`), `main.go` and the TimescaleDB exporter in `handlers/timescale.go` are not part of this model.
- Websocket.Hub.Publish: states that the returned error comes from some failed write, not that it is the last one in Go's map order, because that order is unspecified.
- OpcUa.Options: the option values name what `opcua.go` passes, not the behaviour of the gopcua options themselves.
