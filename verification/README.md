# RC-Tunnel: a verified model of its core

RC-Tunnel is a multi-tenant reverse-tunnel service. Agents behind NAT hold a control connection
to a Go data-plane server (`rctd`), register proxies on it, and dial a work connection back for
every public connection. A Python control panel owns teams, agents and tunnels, tells each agent
its configuration, and signs the grant that limits what the agent may register. This project
models the parts of both that carry state and proves what they promise, over all inputs and over
whole runs. `dafny verify dfyconfig.toml` checks everything.

## How it is built

| file | what it models |
|---|---|
| `Text`, `Sets` | the text operations both sides rely on; a fact about sets |
| `Grant`, `ProxySpec` | printing and parsing grants; proxies and the key a reload compares |
| `Registry`, `Reload`, `Server` | the registry as values, what a reload guarantees, and the classes of the server proved against it |
| `Engine`, `Sessions`, `Races` | runs of the whole engine, whole updates as runs, and where the promises end |
| `Routing` | which requests reach a proxy, what others are refused, and what an answer says |
| `Pairing`, `Limiter` | work-connection pairing and the connection limiter, one channel, lock or map operation per step |
| `Wire` | framing of datagrams and control messages over byte streams |
| `Panel`, `Requests`, `Patterns` | the panel's requests, what each sets and when it is refused, and the patterns for names |
| `Ownership`, `Limits`, `Service`, `Generations` | what requests keep, the handlers proved against them, and configuration generations |
| `Config`, `Isolation`, `Overlaps` | from rows to configuration, grant and rendered proxies; tenant isolation; when two valid grants overlap |
| `EndToEnd`, `Deploy` | panel and engine together: where routes come from, and that what the panel sends is taken on |
| `Certs`, `Billing`, `Throttle`, `Uptime`, `Hosts` | certificate serials, traffic billing, login throttle, online intervals, host lookups |

A class or a method with loops stands for code that changes things in place; it is proved against
functions on values, and the properties are lemmas about those. Concurrent code is a state machine
whose steps are the atomic actions, in any order. A pointer that the code compares is an owner
(connection number and identity); a registration carries a ticket, so that running its teardown
twice would show.

## What the theorems assume

- Text is ASCII. The authentication code is an arbitrary function whose results have no bar
  (the base64url alphabet of RFC 4648, section 5).
- A client may send one name twice in an update; runs include that. Where a theorem needs that no
  client, or not this one, leaves a socket or route behind in this way, it asks for a `Tidy` or
  `TidyBy` run. Updates with distinct names keep a run tidy (`Sessions.UpdateIsRun`), and the
  panel's names are distinct (`Deploy.SentIsSound`).
- The engine may forget the counts of any proxy at any time; it does so for a client's proxies
  when the client disconnects. Bytes may be counted under a forgotten count at any time.
- A kept proxy is not checked against a newly narrowed grant, so `AuthorizationHistory` speaks of
  the grants verified on the connection, not of the current one.
- Hosts of two tenants are disjoint when both teams have a label; `_slug` can return none.
  `LabelsIsolateIff` proves that the label is necessary, and `Overlaps` has a run in which two
  teams without one share a host. The node's host suffix is the apex up to case, and the allowed
  port ranges lie within 1 to 65535.
- Requests to the panel are served one at a time. Serials, enrolment tokens and connection ids
  are fresh.
- The usage of a team is a parameter of the requests that set its suspension; `Billing` computes it.
- The tokens that connections present were issued by the panel where `EndToEnd` and `Deploy` say
  so, over all or some of an agent's tunnels, in any state of the database and with any expiry.

## Where code and text differ

The model follows the code.

- `ratelimit.py` says that a full table stops tracking new addresses; it stops recording for
  tracked addresses too (`Throttle.CountedAfter`, `Throttle.FullTableNeverThrottles`).
- `schemas.py` says that a quota of zero suspends a team; it does so only once the team has used
  something (`Billing.ZeroQuotaSuspendsIff`).
- `reissue_token` says that the old token stops working; an enrolment that has already looked it
  up can still win, because the write asks only for an unused token, and no other can
  (`Certs.OldTokenCanWin`, `Certs.OldTokenWinsIff`).
- `config.py` says that the depth limit includes the label of the team; a team that gets a label
  later keeps tunnels that are too deep (`Limits.RenamingGoesTooDeep`, `Limits.DepthsKeptIff`).
- `models.py` says that the generation is bumped when the configuration changes; a suspension
  changes it without a bump (`Generations.QuotaEmptiesTheConfiguration`,
  `Generations.ChangesWithoutBumpIff`), though the agent is told.
- The billing loop calls its deltas safe against resets; they are not exact: whatever a disconnect
  or restart leaves unread is never billed, and a reset may go unnoticed
  (`Billing.DisconnectLosesTheCount`, `Billing.PollIsExactIff`).
- The comments at the drains say that a work connection would leak otherwise; it still can
  (`Pairing.StrandedExactlyWhen`).
- A reader cannot tell a stream that ends after a length field from one that ends between frames
  (`Wire.CutFrame`).

## Model

| member | source | states |
|---|---|---|
| Text.LowerMeans | rctunnel-engine/internal/server/server.go:524-525 | Lower-casing yields the one text without the letters A to Z that differs from the given one in the case of letters only; letters are told by their codes. |
| Text.LowerEqualIff | rctunnel-engine/internal/server/server.go:524-525 | Two texts have the same lower case if and only if they are of one length and differ only by an upper and a lower letter of one pair. |
| Text.StripMeans | rctunnel-panel/rctunnel_panel/api/tunnels.py:86 | What is stripped is white space, by its codes, and none is left at either end. |
| Text.HostPartMeans | rctunnel-engine/internal/server/server.go:774-777 | Of a request host, whatever follows the first colon does not count, and neither does its case. |
| Text.ParseInt64Says | rctunnel-engine/internal/grant/grant.go:44-51 | A number is read exactly from an optional sign and decimal digits whose value fits 64 bits. |
| Grant.Verify | rctunnel-engine/internal/grant/grant.go:29-62 | The parser with its two loops returns exactly the specified verdict: format, signature, identity and expiry are checked in this order, and the scope is the set of parsable ports and of lower-cased hosts. |
| Grant.RoundTrip | rctunnel-panel/rctunnel_panel/grant.py:28-37 | Verifying a signed grant for its own identity gives back exactly the set of ports and the set of stripped, lower-cased hosts if and only if the identity has no bar, the hosts have no bar or comma, the numbers fit 64 bits, and the grant has not expired. |
| Grant.TokenSays | rctunnel-panel/rctunnel_panel/grant.py:28-37 | The text of a token: version, identity, expiry, the ports and the cleaned hosts, each ascending and without duplicates, then the code of these five fields. |
| Grant.PortsRoundTrip | rctunnel-panel/rctunnel_panel/grant.py:31 | Printing ports sorted and without duplicates and parsing them back yields exactly the ports that fit a 64-bit integer, and the field never contains a bar. |
| Grant.HostsRoundTrip | rctunnel-panel/rctunnel_panel/grant.py:32 | The host field reads back as the cleaned host set if and only if no cleaned host contains a comma. |
| Grant.VerifiedOfSigned | rctunnel-engine/internal/grant/grant.go:29-62 | For a signed grant without stray bars, the verdict for any asking identity at any time: mismatch, expiry, or success with the parsed scope. |
| Grant.BarsBreakTheFormat | rctunnel-engine/internal/grant/grant.go:30-33 | A bar in the identity or in a host makes the token malformed for everybody, so it can never widen a scope. |
| Grant.OtherIdentityRefused | rctunnel-engine/internal/grant/grant.go:41-43 | A well-formed grant is refused for every other identity. |
| Grant.AcceptedIsAuthentic | rctunnel-engine/internal/grant/grant.go:34-43 | Whatever token is accepted is a five-field message for that identity followed by its own authentication code. |
| ProxySpec.SpecKeyInjective | rctunnel-engine/internal/server/server.go:309-312 | For well-formed specs two keys are equal if and only if type, port, subdomain and domain list are equal. |
| ProxySpec.SpecKeyEqualIff | rctunnel-engine/internal/server/server.go:309-312 | Whatever the domains: keys of specs without a bar in type and subdomain are equal if and only if type, port and subdomain agree and the domain lists agree when every domain is cut at its spaces, an empty list reading like one empty domain. |
| ProxySpec.KeyFixesTypeAndPort | rctunnel-engine/internal/server/server.go:309-312 | Equal keys fix type and port even when subdomain and domains are arbitrary. |
| ProxySpec.SpecKeyCollisions | rctunnel-engine/internal/server/server.go:309-312 | Without well-formedness keys collide: a domain with a space, and an empty domain. |
| Registry.CloseAllStep | rctunnel-engine/internal/server/server.go:418-427 | Tearing down one more entry, whichever comes next in map order, extends the set that is torn down: the order of the loop does not matter. |
| Reload.DesiredAt | rctunnel-engine/internal/server/server.go:414-417 | With distinct names the desired map holds every proxy under its name and nothing else. |
| Reload.DesiredIsLast | rctunnel-engine/internal/server/server.go:414-417 | Of proxies with one name, wherever they stand in the list, the last one is desired. |
| Reload.EnlistIsEnlisted | rctunnel-engine/internal/server/server.go:428-436 | The registering loop answers every proxy in order, OK exactly when its name ends up registered, and only adds registrations of the list. |
| Reload.UpdateContract | rctunnel-engine/internal/server/server.go:411-437 | After an update with distinct names the registered names are exactly those answered OK, each with the desired key; entries desired again with the same key are the very same ones; exactly the other old entries have their teardown run. |
| Reload.UpdateIsLocal | rctunnel-engine/internal/server/server.go:411-437 | An update, even with duplicate names, removes, adds and changes no route of another identity and no socket of another connection; so no host passes from one identity to another by a whole update. |
| Reload.OkMeansRegisteredIff | rctunnel-engine/internal/server/server.go:428-436 | An OK answer means that precisely the desired target is registered, if and only if the name was not registered before for another target with an equal key. |
| Reload.OkMeansRegistered | rctunnel-engine/internal/server/server.go:428-436 | So it does whenever the proxy, and the one registered under its name, are well-formed. |
| Reload.ReplayIsNoOp | rctunnel-engine/internal/server/server.go:411-437 | Replaying an update that fully succeeded changes neither the shared tables nor the client and answers the same. |
| Reload.RefusedExactlyWhen | rctunnel-engine/internal/server/server.go:448-551 | A proxy is accepted if and only if its name, type, port and domains are in order, the grant covers it, its socket is unbound and none of its hosts is routed for another identity. |
| Reload.ReloadAnswersFairly | rctunnel-engine/internal/server/server.go:411-437 | If names and sockets are distinct, and each port or host that a proxy in order asks for is free or held by this client, exactly the proxies that are in order or kept are answered OK, one by one, even when proxies trade ports or hosts. |
| Reload.ReloadIsPermutationSafe | rctunnel-engine/internal/server/server.go:411-437 | So a reload all of whose proxies are in order is never refused. |
| Engine.EventKeepsBase | rctunnel-engine/internal/server/server.go:314-405 | Whatever the step, and whatever names clients send: registrations are filed under their names, hold their sockets, have not been torn down, mirror the tcp map and are authorized, and the clients map names live connections. |
| Engine.AddKeepsRoutesIff | rctunnel-engine/internal/server/server.go:536 | Registering a proxy keeps every route leading to a live registration if and only if every route of a registration whose place it takes is taken over. |
| Engine.AddKeepsSocketsIff | rctunnel-engine/internal/server/server.go:488 | It keeps every bound socket with a live registration if and only if no socket is bound for a registration whose place it takes. |
| Engine.EventKeepsIff | rctunnel-engine/internal/server/server.go:507 | Of all steps, in any interleaving and also by evicted connections, exactly one kind breaks the agreement of tables and registrations: registering over a name that is still registered for a port, or whose routes are not all taken over. |
| Engine.AlwaysInvIff | rctunnel-engine/internal/server/server.go:314-565 | Throughout a run tables and registrations agree if and only if no step of it was of that kind. |
| Engine.ReachableInv | rctunnel-engine/internal/server/server.go:314-565 | So after every run without such a step routes, bound sockets and tcp entries lead to live registrations that list them, every registration holds its socket and has not been torn down, and the clients map names live connections. |
| Engine.NothingOutlivesItsConnection | rctunnel-engine/internal/server/server.go:553-565 | After such a run no route, bound socket or clients entry of a connection remains once it is gone. |
| Engine.ReachableOwnSocks | rctunnel-engine/internal/server/server.go:472-509 | A connection that never registered over a name in that way loses none of its sockets, whatever names others send: every socket bound for it belongs to one of its registrations. |
| Engine.AuthorizationHistory | rctunnel-engine/internal/server/server.go:348-358 | With grants enforced, in every run, every live registration lay within a grant verified for that identity on that connection. |
| Engine.NewGrantRules | rctunnel-engine/internal/server/server.go:391-402 | Once a connection has verified a new grant only that one counts: a proxy outside it is refused whatever earlier grants allowed, and one within it is judged as if there were no grants. |
| Engine.LeavingIsFinal | rctunnel-engine/internal/server/server.go:368-374 | A connection that is leaving registers nothing and verifies nothing any more; its registrations only go. |
| Engine.NoIdentityJump | rctunnel-engine/internal/server/server.go:520-535 | No single step, of any state at all, moves a routed host from one identity to another. |
| Engine.RefusalChangesNothing | rctunnel-engine/internal/server/server.go:521-535 | A proxy that is turned down leaves the whole state as it was. |
| Engine.TeardownIsLocal | rctunnel-engine/internal/server/server.go:536-546 | Teardown, leave and finish of one connection remove no route, socket or clients entry of another one, so a late cleanup cannot harm its successor. |
| Sessions.PruneIsRun | rctunnel-engine/internal/server/server.go:418-427 | Tearing down a set of registrations is a run of single teardowns. |
| Sessions.EnlistIsRun | rctunnel-engine/internal/server/server.go:428-436 | Registering a list is a run of single registrations. |
| Sessions.UpdateIsRun | rctunnel-engine/internal/server/server.go:411-437 | A whole update, with whatever names, is a run of single steps, so what every step keeps, every update keeps; with distinct names none of its steps leaves a socket or route behind. |
| Sessions.HelloIsRun | rctunnel-engine/internal/server/server.go:359-376 | A hello is an admission followed by its first update, with whatever names, as one run. |
| Sessions.DisconnectIsRun | rctunnel-engine/internal/server/server.go:368-374 | A disconnect leaves the clients map, tears everything down and is gone, as one run. |
| Sessions.TakenOnKeepsRoutedIff | rctunnel-engine/internal/server/server.go:518-547 | When every host that the newest connections have registered is routed to the proxy that registered it, a proxy that is taken on, by whatever connection and under whatever name, keeps this so if and only if it shares no host with what the newest connection of its identity has registered, a registration whose place it takes aside. |
| Sessions.EventKeepsRoutedIff | rctunnel-engine/internal/server/server.go:314-405 | Of all steps only such a registration can break it; teardowns, admissions, new grants and departures never do. |
| Sessions.AlwaysRoutedIff | rctunnel-engine/internal/server/server.go:359-376 | Throughout any run the newest connections are fully routed if and only if every proxy that was taken on was apart in this sense. |
| Sessions.NewestIsRouted | rctunnel-engine/internal/server/server.go:518-547 | So at the end of such a run each host that the newest connection of an identity has registered is routed to the proxy that registered it; no proxy need be well-formed. |
| Sessions.OrderlyAddsAreApart | rctunnel-engine/internal/server/server.go:359-376 | Runs in which only newest connections register, in updates of disjoint hosts, are such runs. |
| Sessions.OrderlyIsWellRegistered | rctunnel-engine/internal/server/server.go:428-436 | In such runs everything registered is well-formed. |
| Sessions.ReachableUpdateIsLocal | rctunnel-engine/internal/server/server.go:411-437 | In every reachable state an update, with whatever names, leaves the routes of other identities, the sockets, tcp entries and registrations of other connections, and the clients map as they were. |
| Sessions.ReachableReloadIsFair | rctunnel-engine/internal/server/server.go:411-437 | Whatever other connections have sent: a reload with distinct names and sockets, by a connection that has left no socket behind, that asks, as far as it is in order, only for what is free or its own, is answered OK exactly for the proxies that are in order or kept. |
| Sessions.RegisteredAreInOrder | rctunnel-engine/internal/server/server.go:448-551 | After any run everything registered has a name, a known type, and a port or a host. |
| Races.LateRegistrationLosesTheRoute | rctunnel-engine/internal/server/server.go:361-376 | A run in which a connection that was already evicted registers late, and its teardown leaves the newest connection registered but unrouted. |
| Races.DuplicateNameLeaksARoute | rctunnel-engine/internal/server/server.go:428-436 | A run from the empty engine: a client names one proxy twice in its first update, is answered OK, and disconnects; no connection is left and a route still leads to it. |
| Races.CollidingKeysHideAChange | rctunnel-engine/internal/server/server.go:430-432 | A run from the empty engine: a client registers a domain with a space, then asks for the two domains it reads like, is answered OK, and the two are never routed. |
| Routing.AcceptedIsReached | rctunnel-engine/internal/server/server.go:769-779 | Once a web proxy is taken on, exactly the requests whose host, without its port and in whatever case, is one of its custom domains or its subdomain reach it; all other requests go where they went before. |
| Routing.ClosedIsUnreached | rctunnel-engine/internal/server/server.go:536-547 | A registration that is torn down is reached by nobody, and no other request changes its way. |
| Routing.RoutedKeysAreLower | rctunnel-engine/internal/server/server.go:524-534 | After every run no routed key holds a letter A to Z. |
| Routing.OtherSpellingIsRefused | rctunnel-engine/internal/server/server.go:524-531 | After every run a proxy that asks, in whatever spelling of upper and lower letters, for a host that is routed for another identity changes nothing. |
| Routing.RegisterSays | rctunnel-engine/internal/server/server.go:448-551 | The answer to a registration: which error it gets, in the order of the checks and in terms of what was sent (64 characters, ports up to 65535, hosts in any case), and that every other proxy is registered as sent. |
| Server.Server.HandleHello | rctunnel-engine/internal/server/server.go:348-376 | A refused grant changes nothing; otherwise the new connection takes the clients entry, names the evicted one, and its update acts as specified. |
| Server.Server.FindRoute | rctunnel-engine/internal/server/server.go:774-779 | Lower-casing, cutting at the first colon and looking up finds the entry that the request reaches. |
| Server.Client.CheckGrant | rctunnel-engine/internal/server/server.go:453-471 | The grant check in place equals the specified verdict. |
| Server.Client.CheckHosts | rctunnel-engine/internal/server/server.go:461-469 | The loop finds the first host outside the grant. |
| Server.Client.LookForClaims | rctunnel-engine/internal/server/server.go:519-531 | The first loop finds the first host routed for another identity and otherwise lower-cases all hosts, touching nothing. |
| Server.Client.InsertRoutes | rctunnel-engine/internal/server/server.go:532-534 | The second loop routes exactly the given hosts to this proxy. |
| Server.Client.ClaimHosts | rctunnel-engine/internal/server/server.go:518-535 | All hosts are claimed or none. |
| Server.Client.Register | rctunnel-engine/internal/server/server.go:448-551 | The method with its branches changes maps, bound sockets and registrations exactly as specified, and returns the specified status. |
| Server.Client.CloseEntry | rctunnel-engine/internal/server/server.go:486-546 | Running the teardown of one entry removes its socket, its tcp entry and those routes that still belong to this client, nothing else. |
| Server.Client.CloseAndForget | rctunnel-engine/internal/server/server.go:422-425 | One step of the removing loop. |
| Server.Client.RemoveUndesired | rctunnel-engine/internal/server/server.go:418-427 | The removing loop, in any map order, tears down exactly what is not desired or has changed, never twice. |
| Server.Client.ApplyUpdate | rctunnel-engine/internal/server/server.go:411-437 | The whole update in place equals the specified update, status by status. |
| Server.Client.HandleUpdate | rctunnel-engine/internal/server/server.go:391-402 | An update whose grant fails to verify leaves registry and client unchanged; otherwise it acts as specified under the new grant. |
| Server.Client.Disconnect | rctunnel-engine/internal/server/server.go:368-374 | The clients entry goes only if it is still this connection, then everything is torn down. |
| Server.Client.CloseEverything | rctunnel-engine/internal/server/server.go:553-565 | The cleanup loop tears down every registration exactly once. |
| Pairing.WorkStepKeeps | rctunnel-engine/internal/server/server.go:709-743 | Dialling, the lookup, the owner check and a refused offer keep the pairing invariant. |
| Pairing.HandOverKeeps | rctunnel-engine/internal/server/server.go:739-741 | An accepted offer keeps it. |
| Pairing.ReceiveKeeps | rctunnel-engine/internal/server/server.go:591-594 | A waiter that takes the connection from its channel keeps it. |
| Pairing.DrainKeeps | rctunnel-engine/internal/server/server.go:599-604 | The drain after a timeout keeps it. |
| Pairing.ReachableInv | rctunnel-engine/internal/server/server.go:584-606 | The invariant holds after every interleaving of map accesses, channel operations, timeouts and cancellations. |
| Pairing.ExactlyOnePlace | rctunnel-engine/internal/server/server.go:584-745 | Every work connection is at any time in exactly one place: with its handler, in one channel, bridged to one waiter, or closed. |
| Pairing.BridgesAreSafe | rctunnel-engine/internal/server/server.go:709-745 | No waiter and no work connection is bridged twice, no waiter after it gave up, and a bridged connection asked for this waiter and shows its owner whenever both are named. |
| Pairing.PairsUp | rctunnel-engine/internal/server/server.go:584-594 | A connection that asks for a published pairing with an empty channel, and does not show another owner, gets through the lookup, the check and the offer and is bridged to the waiter. |
| Pairing.ClosedExactlyWhen | rctunnel-engine/internal/server/server.go:709-745 | A step closes a work connection if and only if its handshake fails, its pairing is not published, it shows another owner while both are named, the channel is full, its waiter drains it, or its bridge ends. |
| Pairing.PublishedExactlyWhen | rctunnel-engine/internal/server/server.go:584-606 | A pairing is published by the opening of its waiter, withdrawn when it is forgotten, and changed by no other step. |
| Pairing.StrandedExactlyWhen | rctunnel-engine/internal/server/server.go:595-604 | A step leaves a connection behind in a channel if and only if it is offered after its waiter was served, drained or cancelled, or a datagram waiter is cancelled with a full channel. |
| Pairing.StrandedForever | rctunnel-engine/internal/server/server.go:586-606 | A connection that is left behind stays so in every continuation. |
| Pairing.LateOfferStrands | rctunnel-engine/internal/server/server.go:739-741 | A run in which an offer comes after the drain. |
| Pairing.CancelStrands | rctunnel-engine/internal/server/server.go:652-657 | A run in which a datagram waiter is cancelled with a full channel. |
| Limiter.Limiter.Acquire | rctunnel-engine/internal/server/server.go:144-151 | Takes a global slot unless 60000 are taken. |
| Limiter.Limiter.AcquireCNOnly | rctunnel-engine/internal/server/server.go:186-194 | Takes a slot of the identity unless it has 10000. |
| Limiter.Limiter.ReleaseCNOnly | rctunnel-engine/internal/server/server.go:196-204 | Gives it back; the last one removes the key. |
| Limiter.Limiter.AcquireCN | rctunnel-engine/internal/server/server.go:157-170 | A slot of each kind or nothing at all. |
| Limiter.Limiter.ReleaseCN | rctunnel-engine/internal/server/server.go:172-181 | Gives both back. |
| Limiter.Limiter.ServeOne | rctunnel-engine/internal/server/server.go:574-579 | A connection that comes and goes leaves the counters exactly as they were. |
| Limiter.RaiseThenLower | rctunnel-engine/internal/server/server.go:172-181 | Releasing undoes acquiring, including the stored key. |
| Limiter.EventKeeps | rctunnel-engine/internal/server/server.go:144-204 | Every channel operation and lock region of any handler keeps: used slots are live handlers, each count is the number of its holders within 10000, no zero is stored; and no release blocks. |
| Limiter.ReachableInv | rctunnel-engine/internal/server/server.go:144-204 | So it is in every interleaving. |
| Limiter.ReleaseNeverBlocks | rctunnel-engine/internal/server/server.go:153 | A leaving handler never blocks on the semaphore. |
| Limiter.RefusedExactlyWhen | rctunnel-engine/internal/server/server.go:157-170 | A connection is turned away exactly when 60000 handlers live, an identity exactly when it alone holds 10000 slots. |
| Limiter.CountsAddUp | rctunnel-engine/internal/server/server.go:144-204 | The identity counts together are at most the used global slots, which are at most 60000, and all is empty again when the last handler is gone. |
| Wire.U32Wraps | rctunnel-engine/internal/proto/proto.go:94 | Writing and reading 32 bits reduces modulo 2 to the 32. |
| Wire.FieldsHoldTheLengths | rctunnel-engine/internal/proto/proto.go:89-95 | Under the writer's guard both length fields hold the true lengths. |
| Wire.FrameLayout | rctunnel-engine/internal/proto/proto.go:88-100 | The bytes of a datagram frame: four for the length of what follows, two for that of the address, most significant first, then address and data. |
| Wire.MsgLayout | rctunnel-engine/internal/proto/proto.go:66-81 | The bytes of a control frame: four for the length, most significant first, then the payload. |
| Wire.DecodeFrame | rctunnel-engine/internal/proto/proto.go:88-121 | A framed datagram is read back, with the rest of the stream untouched, if and only if the writer would have accepted it. |
| Wire.OnlyFramesDecode | rctunnel-engine/internal/proto/proto.go:102-121 | Whatever is read is, byte for byte, the frame that the writer makes of it. |
| Wire.DecodeWritten | rctunnel-engine/internal/proto/proto.go:88-121 | On any stream that starts with written frames, exactly these are read and then what follows. |
| Wire.StreamRoundTrip | rctunnel-engine/internal/proto/proto.go:88-121 | Decoding the concatenation of any list of frames returns the list. |
| Wire.OnlyWrittenIsRead | rctunnel-engine/internal/proto/proto.go:102-121 | On any stream at all, what is read up to the first error was written at its front. |
| Wire.EncodeAllInjective | rctunnel-engine/internal/proto/proto.go:88-100 | Different lists of datagrams never look the same on the wire. |
| Wire.CutFrame | rctunnel-engine/internal/proto/proto.go:104-114 | A frame cut short is an error; it looks like a clean end exactly when nothing or just the length field is left. |
| Wire.CutStream | rctunnel-engine/internal/proto/proto.go:102-121 | A stream cut anywhere yields exactly the whole frames before the cut and then that error. |
| Wire.DecodeMsgFrame | rctunnel-engine/internal/proto/proto.go:66-81 | A control frame is read back if and only if its payload is neither empty nor above the limit; the writer itself does not refuse an empty one. |
| Wire.OnlyMsgFramesDecode | rctunnel-engine/internal/proto/proto.go:124-136 | Whatever control frame is accepted is what the writer makes of its payload. |
| Wire.Conn.ReadFull | rctunnel-engine/internal/proto/proto.go:105-113 | Filling a buffer from a connection that delivers in arbitrary pieces. |
| Wire.WriteDatagram | rctunnel-engine/internal/proto/proto.go:88-100 | The buffer filled in place is the frame, and nothing is written when the guard refuses. |
| Wire.ReadDatagram | rctunnel-engine/internal/proto/proto.go:103-121 | Reading step by step equals decoding the bytes that were there. |
| Wire.WriteMsg | rctunnel-engine/internal/proto/proto.go:66-81 | Header and payload written one after the other make the frame. |
| Wire.ReadMsg | rctunnel-engine/internal/proto/proto.go:124-136 | Reading step by step equals decoding the frame. |
| Service.Service.CheckSubdomainLabels | rctunnel-panel/rctunnel_panel/api/tunnels.py:59-72 | The loop accepts exactly the subdomains whose non-empty labels all match and whose first is not reserved. |
| Service.Service.CheckCustomDomains | rctunnel-panel/rctunnel_panel/api/tunnels.py:75-104 | The loops give the specified verdict: count, form, apex, and uniqueness over all tunnels. |
| Service.Service.CheckUnique | rctunnel-panel/rctunnel_panel/api/tunnels.py:107-118 | The query finds a tunnel of the same team with the same subdomain, case-insensitively, if there is one. |
| Service.Service.CollectUsedPorts | rctunnel-panel/rctunnel_panel/api/tunnels.py:126-130 | The ports in use on a node, over all its agents. |
| Service.Service.AllocatePort | rctunnel-panel/rctunnel_panel/api/tunnels.py:121-141 | A wished port is granted exactly when in range and unused; otherwise the first free one. |
| Service.Service.CreateTunnel | rctunnel-panel/rctunnel_panel/api/tunnels.py:166-189 | The handler checks in the source's order, changes rows and bumps the generation exactly as specified; a refused request changes nothing. |
| Service.Service.UpdateTunnel | rctunnel-panel/rctunnel_panel/api/tunnels.py:193-220 | The same for an update with any subset of fields. |
| Requests.AllocateSays | rctunnel-panel/rctunnel_panel/api/tunnels.py:121-141 | A wished port is granted exactly if it is allowed and no other tunnel of the node has it, and each refusal gets its own answer; without a wish the least unused port of the range is granted, and none only if all are in use. |
| Requests.CreateTunnelSays | rctunnel-panel/rctunnel_panel/api/tunnels.py:163-189 | The answer to a request for a new tunnel, reason by reason in the order of the checks; an accepted one adds one row, as it was sent, with the granted port, and changes nothing else. |
| Requests.UpdateTunnelSays | rctunnel-panel/rctunnel_panel/api/tunnels.py:193-220 | The answer to a change of a tunnel, reason by reason; an accepted one sets every given field, the port included, to the given value and leaves every other field and row alone. |
| Requests.SwitchShows | rctunnel-panel/rctunnel_panel/control/protocol.py:85-113 | The configuration that is sent next, and its grant as the engine reads it, hold a tunnel, its port and its hosts if it is enabled and its team is not suspended, and nothing of it otherwise. |
| Requests.UpdateSwitches | rctunnel-panel/rctunnel_panel/api/tunnels.py:215-216 | So an accepted update that switches a tunnel off takes its port and hosts out of the next configuration and grant, and one that switches it on puts them in, unless its team is suspended. |
| Requests.UnderApexSays | rctunnel-panel/rctunnel_panel/api/tunnels.py:92-94 | A domain is kept from the apex by its letters, not their case: it is refused exactly if it is the apex or ends with a dot and the apex. |
| Patterns.LabelMatchSays | rctunnel-panel/rctunnel_panel/api/tunnels.py:33 | The test for a label decides the regular expression, with its usual meaning and the anchor that also matches before a final line feed. |
| Patterns.LabelsOkSays | rctunnel-panel/rctunnel_panel/api/tunnels.py:59-72 | A subdomain passes if and only if each of its non-empty parts matches in lower case and the first of them is, in whatever case, none of the fifteen reserved names. |
| Patterns.FqdnPattern | rctunnel-panel/rctunnel_panel/api/tunnels.py:29 | The test for a domain decides its regular expression and length. |
| Patterns.SlugSays | rctunnel-panel/rctunnel_panel/api/teams.py:19-21 | A derived label is made of the runs of letters and digits of the name, lower-cased, with single hyphens between them, cut after 63 characters; without such a run there is none. |
| Service.Service.DeleteTunnel | rctunnel-panel/rctunnel_panel/api/tunnels.py:224-234 | The same for a deletion. |
| Requests.DeleteTunnelSays | rctunnel-panel/rctunnel_panel/api/tunnels.py:224-234 | A deletion removes that row and no other. |
| Service.Service.CreateTeam | rctunnel-panel/rctunnel_panel/api/teams.py:30-43 | The same for a new team. |
| Requests.CreateTeamSays | rctunnel-panel/rctunnel_panel/api/teams.py:30-43 | The answer to a request for a new team; an accepted one has the stripped name, the slug of the label asked for or else of the name, the quota, and is not suspended. |
| Requests.UpdateTeamSays | rctunnel-panel/rctunnel_panel/api/teams.py:47-92 | The answer to a change of a team; an accepted one sets name, label, quota and the suspension that follows from them, and nothing else. |
| Requests.PollSays | rctunnel-panel/rctunnel_panel/control/traffic.py:60-73 | A poll suspends exactly the teams with a quota below their usage, and changes nothing else. |
| Requests.DeleteTeamSays | rctunnel-panel/rctunnel_panel/api/teams.py:95-106 | A team with agents is not deleted; otherwise only it goes. |
| Requests.CreateAgentSays | rctunnel-panel/rctunnel_panel/api/agents.py:57-62 | An agent is made on its node for a team that exists, or for none, and nothing else changes. |
| Requests.DeleteAgentSays | rctunnel-panel/rctunnel_panel/api/agents.py:88-97 | An agent goes with all its tunnels and no others. |
| Service.Service.UpdateTeam | rctunnel-panel/rctunnel_panel/api/teams.py:47-92 | The same for a changed team with its quota: the suspension follows the usage at once, the generations of its agents are bumped exactly when the label changes, and they are told exactly when label or suspension change. |
| Service.Service.CheckTeam | rctunnel-panel/rctunnel_panel/api/teams.py:53-66 | The checks give the specified verdict in the source's order, and the label that the team will have. |
| Service.TeamChangeTells | rctunnel-panel/rctunnel_panel/api/teams.py:78-91 | A change of a team bumps its agents exactly when it changes the label, and tells them exactly when it changes the label or flips the suspension. |
| Service.Service.BumpMembers | rctunnel-panel/rctunnel_panel/api/teams.py:80-83 | The loop bumps exactly the agents of the team. |
| Ownership.FirstFreeIsFree | rctunnel-panel/rctunnel_panel/api/tunnels.py:138-141 | The search returns the least unused port of the range, or fails when there is none. |
| Ownership.AllocatedIsFree | rctunnel-panel/rctunnel_panel/api/tunnels.py:121-141 | An allocated port is used by no other tunnel on the node. |
| Ownership.CheckedDomains | rctunnel-panel/rctunnel_panel/api/tunnels.py:83-104 | Domains that pass are well-formed, not under the apex, and claimed by no other tunnel. |
| Ownership.SlugIsLabel | rctunnel-panel/rctunnel_panel/api/teams.py:19-21 | A derived label is made of letters, digits and hyphens, so it has no dot. |
| Ownership.CreateTunnelKeeps | rctunnel-panel/rctunnel_panel/api/tunnels.py:166-189 | Creating a tunnel keeps ports, subdomains and domains unique. |
| Ownership.UpdateTunnelKeeps | rctunnel-panel/rctunnel_panel/api/tunnels.py:193-220 | So does updating one. |
| Ownership.UpdateTeamKeeps | rctunnel-panel/rctunnel_panel/api/teams.py:47-86 | Renaming or relabelling a team keeps labels unique. |
| Ownership.RequestKeeps | rctunnel-panel/rctunnel_panel/api/tunnels.py:144-234 | Every request keeps the ownership invariant. |
| Ownership.RunKeeps | rctunnel-panel/rctunnel_panel/api/tunnels.py:144-234 | So does every sequence of requests. |
| Limits.RequestKeeps | rctunnel-panel/rctunnel_panel/api/tunnels.py:165-220 | Every request keeps: no agent has more tunnels than allowed or two of one name, no tunnel too many custom domains. |
| Limits.RunKeeps | rctunnel-panel/rctunnel_panel/api/tunnels.py:165-220 | So does every sequence of requests. |
| Limits.DepthsKeptIff | rctunnel-panel/rctunnel_panel/api/tunnels.py:48-56 | The depth limit counts the labels of the subdomain and that of the team: a request breaks it for some tunnel if and only if it gives a label to a team without one that has a tunnel at exactly the limit. |
| Limits.RenamingGoesTooDeep | rctunnel-panel/rctunnel_panel/api/teams.py:53-62 | A run from the empty database after which a tunnel is deeper than the limit, because its team was renamed. |
| Generations.ChangesWithoutBumpIff | rctunnel-panel/rctunnel_panel/control/manager.py:26-42 | A request that does not bump an agent changes the configuration it is sent if and only if it flips the suspension of its team and the agent has an enabled tunnel. |
| Generations.ChangeIsTold | rctunnel-panel/rctunnel_panel/api/teams.py:85-91 | Whoever is sent another configuration is told to fetch it: no change of a configuration goes unannounced, bumped or not. |
| Generations.GenerationSays | rctunnel-panel/rctunnel_panel/api/tunnels.py:144-147 | A request moves the generation of an agent by one if it is accepted and writes or drops one of its tunnels or changes the label of its team, and otherwise not at all. |
| Generations.ToldSays | rctunnel-panel/rctunnel_panel/api/teams.py:85-91 | Exactly these agents are told, and those of teams that are suspended or resumed. |
| Generations.SameGenerationSamePayloads | rctunnel-panel/rctunnel_panel/models.py:121 | Over any run in which the agent is not deleted its generation never goes down, and as long as it is the same, so are the payloads of its enabled tunnels. |
| Generations.SameGenerationSameConfigIff | rctunnel-panel/rctunnel_panel/control/manager.py:26-42 | Two states of a run with the same generation send the agent the same configuration if and only if its team is suspended in both or in neither, or it has no enabled tunnel. |
| Generations.QuotaEmptiesTheConfiguration | rctunnel-panel/rctunnel_panel/api/teams.py:70-78 | A run in which a lowered quota empties the configuration of an agent and its generation stays. |
| Config.CollectHosts | rctunnel-panel/rctunnel_panel/control/protocol.py:98-101 | The loop collects exactly the hosts of the web tunnels. |
| Config.RenderRctc | rctunnel-panel/agent/rctunnel_agent.py:373-393 | The agent's loop renders exactly one proxy for each tunnel of a known type. |
| Deploy.SentMatchesRows | rctunnel-panel/agent/rctunnel_agent.py:373-393 | From a configuration the agent renders exactly one proxy for each enabled tunnel: named after its id, of its type, with its local address (the agent's own where the tunnel says auto) and local port, its remote port, and exactly the host names of its subdomain and domains. |
| Deploy.BilledUnderItsName | rctunnel-panel/rctunnel_panel/control/traffic.py:51 | The key under which the engine counts that proxy is the one under which the tunnel is billed. |
| Config.FqdnsClean | rctunnel-panel/rctunnel_panel/control/protocol.py:70-82 | Every host name built for an accepted tunnel is non-empty, trimmed, and free of commas and bars. |
| Config.DomainListOfJoined | rctunnel-panel/rctunnel_panel/control/protocol.py:78-81 | Host names survive being joined and split at commas. |
| Config.SubdomainFqdnClean | rctunnel-panel/rctunnel_panel/api/tunnels.py:59-69 | The label gate keeps separators out of the host names. |
| Isolation.PortsAreListed | rctunnel-panel/rctunnel_panel/control/protocol.py:95-96 | The ports of a configuration over any of an agent's tunnels are exactly those of the enabled tunnels it lists. |
| Isolation.HostsAreListed | rctunnel-panel/rctunnel_panel/control/protocol.py:97-101 | Its hosts, cleaned, are exactly the lower-cased names of the enabled tunnels it lists. |
| Isolation.GrantVerdict | rctunnel-panel/rctunnel_panel/control/protocol.py:85-102 | The engine's verdict on the grant of a configuration over any of an agent's tunnels, whoever presents it and whenever: another identity is refused, an expired or oversized expiry is refused, and otherwise its scope is exactly the ports and hosts of the enabled tunnels listed. |
| Isolation.GrantScope | rctunnel-panel/rctunnel_panel/control/protocol.py:85-102 | So the grant that the panel sends verifies for its agent until it expires, with exactly the ports and hosts of its enabled tunnels, and with none at all while its team is suspended. |
| Isolation.GrantRefusedToOthers | rctunnel-panel/rctunnel_panel/control/protocol.py:102 | It is refused for every other agent. |
| Isolation.HostsDiffer | rctunnel-panel/rctunnel_panel/control/protocol.py:70-82 | No host name belongs to two tunnels of agents with labelled teams. |
| Isolation.OwnedHostsDisjoint | rctunnel-panel/rctunnel_panel/control/protocol.py:70-101 | The hosts of two agents of labelled teams are disjoint. |
| Isolation.OwnedPortsDisjoint | rctunnel-panel/rctunnel_panel/api/tunnels.py:121-141 | The ports of two agents of one node are disjoint. |
| Isolation.TenantIsolation | rctunnel-panel/rctunnel_panel/control/protocol.py:85-113 | After any sequence of requests, suspensions included, the grants of two agents of labelled teams verify each for its own agent only and share neither a port nor a host. |
| Isolation.LabelsIsolateIff | rctunnel-panel/rctunnel_panel/control/protocol.py:74 | Host names, lower-cased as the engine routes them, of subdomains that pass the label and the depth gate can never meet if and only if both teams are labelled, with different labels or with no depth left, or one is labelled and the other cannot spell its label: it is cut at a hyphen, or reserved with no depth before it, or there is no depth at all. |
| Isolation.RenderedIsAuthorized | rctunnel-engine/internal/server/server.go:453-471 | The engine's grant check accepts a rendered proxy if and only if it is not a port proxy without a port. |
| Isolation.ScopeIsRendered | rctunnel-panel/agent/rctunnel_agent.py:373-393 | Every port and host in the scope of the grant is asked for by a rendered proxy. |
| EndToEnd.ReadIsWithin | rctunnel-engine/internal/grant/grant.go:29-62 | Whatever the engine reads, for any identity at any time, from a token that the panel issued lies within what one agent owned in one state of the database. |
| EndToEnd.RegistrationOrigin | rctunnel-engine/internal/server/server.go:453-471 | When every token presented was issued by the panel, every live registration lies within what its identity owned in some state of the database. |
| EndToEnd.TablesAreWithin | rctunnel-engine/internal/server/server.go:472-535 | Then every routed host and every bound port belongs to an identity that owned it in some state of the database, also when the registration behind it is gone, because a client sent a name twice. |
| EndToEnd.RouteOrigin | rctunnel-engine/internal/server/server.go:518-535 | Every routed host leads to an agent that owned the host when its grant was issued, whatever the clients sent. |
| EndToEnd.SocketOrigin | rctunnel-engine/internal/server/server.go:472-509 | Every bound port serves an agent that owned it when its grant was issued, whatever the clients sent. |
| EndToEnd.RoutedToItsOwner | rctunnel-engine/internal/server/server.go:518-535 | As long as tunnels, agents and labels stand still, a host of a labelled tenant is routed to the one agent whose tunnel it is, whatever the connections do and whichever teams are suspended or resumed. |
| EndToEnd.BoundByItsOwner | rctunnel-engine/internal/server/server.go:472-509 | The same for bound ports. |
| Overlaps.UnlabelledTeamsShareAHost | rctunnel-panel/rctunnel_panel/api/teams.py:19-21 | A run from the empty database: two teams whose names give no label, and grants of two of their agents that both verify and cover one host. |
| Overlaps.PortIsGivenUp | rctunnel-panel/rctunnel_panel/api/tunnels.py:193-234 | Along any run of requests, the step before which an agent has a port and after which it has not: it changes or drops the tunnel that has it, or deletes the agent. |
| Overlaps.HostIsGivenUp | rctunnel-panel/rctunnel_panel/api/tunnels.py:193-234 | The same for a host, which may also go with the label of the team. |
| Overlaps.PortsOverlapByHandover | rctunnel-panel/rctunnel_panel/control/protocol.py:85-113 | Two tokens of different agents, issued in two states of one run, that both verify at one time and cover one port: between the two states there is a step by which the first agent gave the port up. |
| Overlaps.HostsOverlapByHandover | rctunnel-panel/rctunnel_panel/control/protocol.py:85-113 | The same for a host of labelled teams. |
| Deploy.SentIsSound | rctunnel-panel/rctunnel_panel/control/protocol.py:85-113 | After any sequence of requests the proxies that an agent renders from its configuration have distinct names and distinct ports, are well-formed, and for a labelled team share no host: all that the theorems about updates ask for. |
| Deploy.SentInOrderIff | rctunnel-engine/internal/server/server.go:448-551 | Under the grant of its configuration a rendered proxy passes the engine's own checks if and only if it is a port proxy with a port or a web proxy with a host. |
| Deploy.SentIsAvailable | rctunnel-engine/internal/server/server.go:472-535 | While tunnels, agents and labels stand still, whatever that configuration asks for is free or held by the agent, if no other of its connections still holds a port. |
| Deploy.RegisteredAreWellFormed | rctunnel-engine/internal/server/server.go:453-471 | With tokens from the panel, whatever web proxy any client has registered is well-formed, whatever the client sent. |
| Deploy.SentIsServed | rctunnel-engine/internal/server/server.go:411-437 | Then an update with the configuration, by a connection that has left no socket behind, is answered OK exactly for the port proxies with a port and the web proxies with a host, and afterwards exactly these are registered, each for what the configuration asks, whatever any other connection has sent before. |
| Deploy.FirstConnection | rctunnel-engine/internal/server/server.go:348-376 | A run that meets these premises: an agent with one tunnel connects to the empty engine with the grant that the panel issued. |
| Certs.AgentTable.Connect | rctunnel-panel/rctunnel_panel/control/server.py:134-145 | A connection is admitted exactly when the row is unpinned, the serial unreadable, or it is one of the pair; it clears the older serial exactly when it presents the newer one. |
| Certs.AgentTable.ClearPrev | rctunnel-panel/rctunnel_panel/control/server.py:278-287 | Denies and drops the older serial, if there is one. |
| Certs.AgentTable.Renew | rctunnel-panel/rctunnel_panel/control/server.py:264-272 | Pins the new serial and keeps a real current one as the older. |
| Certs.AgentTable.Reissue | rctunnel-panel/rctunnel_panel/api/agents.py:111-119 | New unused token, no serial accepted, the current one denied. |
| Certs.AgentTable.Delete | rctunnel-panel/rctunnel_panel/api/agents.py:94-96 | The row goes and its current serial is denied. |
| Certs.AgentTable.Burn | rctunnel-panel/rctunnel_panel/api/agents.py:169-177 | The conditional write wins exactly when the row exists and its token is unused. |
| Certs.AgentTable.RevokeSerial | rctunnel-panel/rctunnel_panel/pki.py:26-38 | The denylist only grows, by a real serial, and a failed write is ignored. |
| Certs.ReachableInv | rctunnel-panel/rctunnel_panel/control/server.py:134-145 | Over every run: serials are pinned for one agent only, the two of a pair differ, denied serials are retired, and tokens are won once. |
| Certs.RetiredIsNeverAdmitted | rctunnel-panel/rctunnel_panel/control/server.py:134-143 | Once a serial has left the pair of its agent, the agent is admitted with it in any later state if and only if its row exists without any pin. |
| Certs.AdmitsSays | rctunnel-panel/rctunnel_panel/control/server.py:134-145 | Who is admitted: nobody without a row; with a row, everybody if it is unpinned or the serial cannot be read, and otherwise exactly the serials of the pair. Only the current serial confirms, and only beside an older one. |
| Certs.RowsSay | rctunnel-panel/rctunnel_panel/api/agents.py:94-177 | What each step writes into the rows, field by field, and that no other row changes. |
| Certs.DenylistSays | rctunnel-panel/rctunnel_panel/pki.py:26-38 | The denylist grows exactly by the serial that a clearing, a reissue or a deletion drops, if it can be written. |
| Certs.PinnedIsNotDenied | rctunnel-panel/rctunnel_panel/pki.py:26-38 | No serial that an agent may still connect with is on the denylist. |
| Certs.OneEnrolmentPerToken | rctunnel-panel/rctunnel_panel/api/agents.py:169-177 | Won enrolments plus the unused token are one more than the used tokens that were replaced. |
| Certs.SecondEnrolmentLoses | rctunnel-panel/rctunnel_panel/api/agents.py:169-177 | Of two enrolments in flight the second writer is refused and changes nothing. |
| Certs.UsedTokenIsRefused | rctunnel-panel/rctunnel_panel/api/agents.py:140-150 | A used token, or one that no row has, starts no enrolment. |
| Certs.DroppedIsDeniedExactlyWhen | rctunnel-panel/rctunnel_panel/api/agents.py:94-118 | A serial that leaves its pair is denied if and only if the handoff was confirmed or it was the current one of a reissued or deleted agent; the older serial is otherwise dropped without being denied. |
| Certs.Handoff | rctunnel-panel/rctunnel_panel/control/server.py:268-272 | After a renewal exactly the new and the previous certificate are accepted, after its confirmation only the new one; a second unconfirmed renewal drops the oldest. |
| Certs.ShutOutEndsIff | rctunnel-panel/rctunnel_panel/api/agents.py:111-119 | While an agent is shut out no certificate of it is accepted, and exactly a won enrolment, a pinned renewal or a deletion ends that. |
| Certs.StaysShutOut | rctunnel-panel/rctunnel_panel/api/agents.py:111-119 | So it stays shut out over every run without such a step. |
| Certs.OldTokenWinsIff | rctunnel-panel/rctunnel_panel/api/agents.py:140-177 | After a reissue the replaced token can still win an enrolment in some continuation if and only if an enrolment that had looked it up was in flight at the reissue. |
| Certs.OldTokenCanWin | rctunnel-panel/rctunnel_panel/api/agents.py:140-177 | A run in which an enrolment that looked the old token up before the reissue wins after it. |
| Certs.RenewalPinsAfterReissue | rctunnel-panel/rctunnel_panel/control/server.py:264-272 | A run in which a renewal after the reissue pins a new certificate. |
| Billing.Poller.Accumulate | rctunnel-panel/rctunnel_panel/control/traffic.py:50-57 | The loop bills each tunnel the sample of its own agent and skips it when there is none. |
| Billing.Poller.SumUsage | rctunnel-panel/rctunnel_panel/control/traffic.py:64-67 | The usage of a team is the sum over the tunnels of its agents. |
| Billing.Poller.PollOnce | rctunnel-panel/rctunnel_panel/control/traffic.py:43-79 | Afterwards every tunnel is billed, every team is suspended exactly if it has a quota and the usage of its tunnels is above it, and exactly the agents of teams that flipped are notified. |
| Billing.UsageAdds | rctunnel-panel/rctunnel_panel/control/traffic.py:64-67 | Usage is a sum: that of two lists together is the sum of theirs. |
| Billing.UsageOfOne | rctunnel-panel/rctunnel_panel/control/traffic.py:64-67 | The usage of a single tunnel is both its directions, if its agent is of the team, and otherwise nothing. |
| Billing.UsageIsOrderless | rctunnel-panel/rctunnel_panel/control/traffic.py:64-67 | It does not depend on the order of the rows. |
| Billing.SuspendedIff | rctunnel-panel/rctunnel_panel/control/traffic.py:68-73 | A team is suspended if and only if it has a quota and its tunnels together were billed more. |
| Billing.TwoTunnelsSuspend | rctunnel-panel/rctunnel_panel/control/traffic.py:64-70 | Two tunnels that exceed the quota only together suspend the team, wherever they stand in the list. |
| Billing.Poller.ChangeQuota | rctunnel-panel/rctunnel_panel/api/teams.py:70-78 | A changed quota takes effect at once. |
| Billing.ReachableInv | rctunnel-panel/rctunnel_panel/control/traffic.py:50-58 | Over every run of traffic, disconnects, restarts, fetches, failed fetches and late commits: a reading, billed or pending, is of the count shown now, or at least as much has been forgotten since. |
| Billing.Conservation | rctunnel-panel/rctunnel_panel/control/traffic.py:50-58 | In every such run, and for either direction, what was counted for a tunnel is exactly what it is billed with the pending sample, plus what the next poll can still bill, plus what was lost: counts that a reset left unread, bytes counted under a forgotten count, and readings whose reset went unnoticed. |
| Billing.FetchSettles | rctunnel-panel/rctunnel_panel/control/traffic.py:43-49 | After a fetch nothing is left to be billed later: what was counted is what is billed plus what was lost. |
| Billing.PollIsExactIff | rctunnel-panel/rctunnel_panel/control/traffic.py:50-58 | After a fetch and its commit, however late and whatever happened between, the bill plus the losses is what was counted up to the fetch; it is exact if and only if, since the row was made, no restart or disconnect left a count unread or went unnoticed and nothing was counted under a forgotten count. |
| Billing.ResetIsExactIff | rctunnel-panel/rctunnel_panel/control/traffic.py:55 | One reset between two polls, by restart or by disconnect, loses nothing if and only if nothing was counted after the earlier poll and the new count is still below the old one, or the old one was zero. |
| Billing.DisconnectLosesTheCount | rctunnel-engine/internal/server/server.go:553-563 | A run without a restart in which a tunnel carries any traffic, its agent disconnects, and the poll bills nothing. |
| Billing.NeverOverbilled | rctunnel-panel/rctunnel_panel/control/traffic.py:50-58 | Whatever resets, lost fetches and late commits happen, no tunnel is ever billed for more than was really counted for it and its own agent. |
| Billing.BilledNeverShrinks | rctunnel-panel/rctunnel_panel/control/traffic.py:55-56 | What is billed never goes down. |
| Billing.CounterKeyInjective | rctunnel-engine/internal/server/server.go:825-831 | Counts of different owners or names never share a key, whatever the names. |
| Billing.KeyFixesTunnel | rctunnel-panel/rctunnel_panel/control/traffic.py:51 | Owner and proxy name determine agent and tunnel. |
| Billing.OthersAreNotBilled | rctunnel-panel/rctunnel_panel/control/traffic.py:48-53 | Counts of another identity never change this agent's bill. |
| Billing.ZeroQuotaSuspendsIff | rctunnel-panel/rctunnel_panel/control/traffic.py:68-70 | A quota of zero suspends a team if and only if a tunnel of one of its agents has been billed anything. |
| Billing.UsageGrows | rctunnel-panel/rctunnel_panel/control/traffic.py:55-67 | Billing only adds to the usage of a team. |
| Billing.PollingNeverResumes | rctunnel-panel/rctunnel_panel/control/traffic.py:60-70 | Polling alone never resumes a suspended team. |
| Throttle.Throttle.TooMany | rctunnel-panel/rctunnel_panel/ratelimit.py:44-49 | The answer is yes exactly when at least 8 failures recorded since the last clear lie within 300 seconds, whatever was pruned or swept. |
| Throttle.Throttle.RecordFail | rctunnel-panel/rctunnel_panel/ratelimit.py:58-66 | Records the failure, or refuses it when 50000 live addresses are tracked, and keeps the table within 50000. |
| Throttle.Throttle.ClearIp | rctunnel-panel/rctunnel_panel/ratelimit.py:69-73 | Forgets the address. |
| Throttle.Throttle.RecentLocked | rctunnel-panel/rctunnel_panel/ratelimit.py:33-41 | Returns the live failures and prunes the others. |
| Throttle.Throttle.SweepLocked | rctunnel-panel/rctunnel_panel/ratelimit.py:26-30 | Leaves exactly the live addresses. |
| Throttle.ReplayCounts | rctunnel-panel/rctunnel_panel/ratelimit.py:58-73 | The table built from the calls counts exactly the calls that a reader would count. |
| Throttle.CountedAfter | rctunnel-panel/rctunnel_panel/ratelimit.py:58-66 | What one more call does to that count: a clear empties it, a failure adds one exactly if it is recent and fewer than 50000 addresses are live, be it tracked already or not. |
| Throttle.FullTableNeverThrottles | rctunnel-panel/rctunnel_panel/ratelimit.py:58-66 | A list of calls that fills the table with 50000 live addresses, after which one of them may fail any number of times within the window: the table does not change and the count stays at one. |
| Throttle.SweptAgrees | rctunnel-panel/rctunnel_panel/ratelimit.py:26-30 | Dropping the addresses whose last failure is old loses nothing that counts. |
| Throttle.PrunedAgrees | rctunnel-panel/rctunnel_panel/ratelimit.py:33-41 | Neither does pruning on a lookup. |
| Uptime.OnlineIntervals | rctunnel-panel/rctunnel_panel/web/routes.py:277-297 | The result is sorted, disjoint, non-empty and inside the window, and covers a time of the window exactly when the latest event up to then is a connect, or there is none and the first event of all is a disconnect; an interval starts where one before it ends only if the agent went and came back at that time. |
| Uptime.Clamp | rctunnel-panel/rctunnel_panel/web/routes.py:292-297 | Cutting to the window changes no covered time of the window. |
| Uptime.OnIsLatest | rctunnel-panel/rctunnel_panel/web/routes.py:282-289 | Processing the events in order tells the same as looking for the latest one. |
| Hosts.LookupByHost | rctunnel-panel/rctunnel_panel/web/routes.py:52-68 | The search over the rows returns what the lookup returns. |
| Hosts.LookupFindsFirst | rctunnel-panel/rctunnel_panel/web/routes.py:52-68 | A host in whatever case, with a port or without, finds the first tunnel, in the order of the query, one of whose names equals the part before the colon up to case, and nothing if there is none. |
| Hosts.BuildHostmap | rctunnel-panel/rctunnel_panel/logship.py:30-48 | The nested loops map every name to the last tunnel that has it. |
| Hosts.OnDemandCheck | rctunnel-panel/rctunnel_panel/web/routes.py:72-83 | A request for a certificate is passed (200) if and only if the name, stripped, is the apex, or lies under it and is a name of one of the tunnels; everything else is refused (403). |
| Hosts.CertifiableMeans | rctunnel-panel/rctunnel_panel/web/routes.py:77-83 | However a name is written, in whatever case, between blanks or with final dots: it may get a certificate if and only if it is the apex, or lies under it and is a name of a tunnel. |
| Hosts.OwnerIsFound | rctunnel-panel/rctunnel_panel/web/routes.py:52-68 | With unique names both resolvers find a tunnel exactly for its own names. |
| Hosts.ResolversAgreeIff | rctunnel-panel/rctunnel_panel/logship.py:36-48 | Search and map agree on every host if and only if no two tunnels share a name. |
| Hosts.ReachableNamesAreUnique | rctunnel-panel/rctunnel_panel/control/protocol.py:70-82 | After any sequence of requests names are unique when all teams with web tunnels are labelled, counting disabled tunnels too. |
| Hosts.GateOnGrantedHosts | rctunnel-panel/rctunnel_panel/web/routes.py:72-83 | Of the hosts in an agent's grant exactly those under the apex may get a certificate, so the custom domains never do. |

## Left out

- TLS, X.509, HMAC, JWT, argon2 and JSON: library calls, kept as arbitrary functions or fresh values.
- Text beyond ASCII: case mapping and stripping of other characters.
- Sockets, deadlines, HTTP parsing, piping, UDP pumping and the connections tracked per proxy: input and output; what remains is that binding succeeds on a free port up to 65535, and that timeouts, cancellations and the end of a bridge may come at any time.
- Other failures of binding a port, and failing writes to a connection: only a busy or impossible port is refused.
- The order of the closers of one registration: they run as one step; the tcp entry is deleted without looking whose it is.
- The revoked-serials check, the shared token and message parsing in the hello and in the work handshake: a connection is admitted, or a work connection rejected, at any time.
- Pairing and Limiter are state machines over values and not classes with goroutines, apart from the limiter's own methods; memory visibility is not modelled.
- The stats map of the engine is modelled in Billing and not in Server: a disconnect is there any number of Forget steps, and a fetch reads all counts at one moment.
- The client `rctc` and its reconnect loop, which repeats the original proxy list: no convergence across reconnects is claimed.
- Several nodes: ports are unique per node, and BoundByItsOwner asks for one node.
- Concurrent database transactions: each request, renewal, burn, fetch and commit is one step.
- Authorization in the panel (roles, team access), names of agents, health-check and transport options, members of teams: plumbing. An update may set custom domains, as its handler allows, although the request schema offers no such field.
- A fetch that fails reads as an empty sample, as in the code; the parsing of the stats document is not modelled.
- The online flag of agents: it is set apart from the connection registry, so the two need not agree.
- Agents whose certificate names no agent, and rows created by older versions beyond a missing pin: not modelled.
- OTA updates, boot guard, installers, Caddy, OpenSearch, templates, auth pages, schema migration, configuration files: plumbing.
- NewestIsRouted: for runs in which every proxy taken on is apart, which AlwaysRoutedIff proves necessary; LateRegistrationLosesTheRoute is a run without that.
- RoutedToItsOwner: while tunnels, agents and labels stand still; while they change, RouteOrigin dates ownership back to the grant, and Overlaps says by which requests it passes on.
- SentIsServed: for agents on one node, with 64-bit tunnel ids, and when no older connection of the agent still holds a port; a host of a kept proxy may have lost its route to a late registration (AlwaysRoutedIff).
- HostsOverlapByHandover: for labelled teams at the later grant; without labels two grants of one state overlap already (UnlabelledTeamsShareAHost).
- Moving an agent to another team or node: the panel has no such request.
- Hosts.BuildHostmap: maps a name to the id of the tunnel, where the code stores a record about the tunnel.
- The own address of an agent, which it finds by asking its routing table: a parameter.
- Throttle.Throttle.RecordFail: takes one time per call, where the code may read the clock again while it sweeps.
