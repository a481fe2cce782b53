# A verified model of the proxy's reconciliation and fan-out pipeline

The proxy downloads a profile that lists SDKs, keeps one SDK client per id, tells a status
reporter and its stream servers what changed, and pushes flag values to open connections.
This project models that pipeline and proves what it promises over whole runs.

* **Auto registrar.** `Registrar` is the registrar on values: a ledger of every client ever
  built, the id map, the key index, the published ids and the calls to the status reporter. One
  refresh is the list of updates `Plan`. `LiveRegistrar` is the same thing as an object with
  mutable maps of client objects, every method proved to do what the updates on values say.
  `RegistrarRuns`, `Reconcile`, `ReconcileRuns`, `RegistrarLedger` and `RegistrarEffects` prove
  that reconciling equals rebuilding, what becomes of every client, and what one refresh does
  to each id.
* **Getting the profile.** `ProfilePoll`, `PollRuns` and `CacheCodec`: the ETag machine over
  200, 304, failures, cache and offline mode (conditional requests as in section 13.1.2 of
  RFC 9110, `W/` stripped as for weak comparison in section 8.8.3.2 of RFC 9110).
* **Publisher.** `PubSub` on values, `Publisher` as an object with channel objects.
* **Stream server.** `StreamServer`, `ServerAgreement`, `ServerKeys`, `StaleKeys`, `StaleRuns` on values,
  `LiveServer` as an object. `Pipeline` runs registrar, publisher and server side by side.
* **Streams and channels.** `Streams`, `StreamInvariants`, `StreamRuns` on values, `LiveStream`
  as objects (`StreamNotify` shows that the order of the two nested map loops is irrelevant).
* **Status reporter.** `Status`, `StatusRuns` and `StatusOverall` on values, `StatusReporter` as an object.
* **Small algorithms.** `UserAttrs` (discriminator), `Common` (`Except`, `KeysOfMap`).

Concurrency is modelled by atomic steps: one update of the registrar with its notification, one
turn of a publisher's loop, one turn of a server's or a stream's loop. Theorems about runs
quantify over every interleaving of these steps. Ranging over a map is modelled by an arbitrary
enumeration or an arbitrary choice, so results hold for every iteration order. Objects are named
on values by their place in a ledger, so object identity is equality of places.

Assumptions, stated as preconditions where they are needed: the nonempty keys of one profile are
pairwise distinct (`DistinctKeys`); ETags are faithful (`World.Faithful`); where readers are
compared with a rebuild, no single refresh takes over a key from what is served (`NoTakeover`, in
`WellBehaved` and `CanStep`); in the closed forms for SDK and cache health no SDK id is `cache`;
refreshes do not overlap and the registrar is not closed during a run; in the theorems about the
stream server's key index each key belongs to one id for good (`Owned`, `OwnedProfile`). An SDK
configuration is reduced to the fields that the reconciliation reads or copies per SDK.

## What does not hold, and exactly when it does

* *Reconcile equals rebuild* fails when a key moves between two ids that both survive the same
  refresh and the id losing it is updated after the id gaining it: the removal of the old entry
  deletes the new one. `Reconcile.MirrorsIffClashFree` gives the exact condition for one listing
  order, `ReconcileRuns.MirrorsIffNoTakeover` for all of them: a key may move only from an id that is
  updated in place to one whose primary key changes, under unchanged options.
  `ReconcileRuns.TakeoverOccurs` is the shortest such refresh.
* *An absent body is never parsed* fails exactly when the origin answers 304 although the request
  carried no `If-None-Match` (`ProfilePoll.AbsentBodyIff`).
* *Construction succeeds or reports an error* fails exactly when the profile carries the
  placeholder ETag `initial` (`PollRuns.BootCrashesIff`): the options are then missing.
* *The stream server's key index is exact* fails when a secondary key is replaced or removed in
  place: the old key stays, even after the SDK is gone, until some SDK is given it again
  (`StaleKeys.StepOrphaned`). Over any number of refreshes, each settled before the next,
  `StaleRuns.StaleIff` says exactly which keys are stale at the end; for one refresh without rest
  see `StaleKeys.RefreshKeepsIndexIff`; the shortest run is `StaleKeys.ReplacedSecondaryStays`.
* *The overall health is exact* fails after a registration that logs no error, until the next
  recalculation, unless the SDKs were neither all down nor all healthy at the last one
  (`StatusOverall.OverallExactIff`; the shortest run is `StatusOverall.NewSdkIsOverlooked`).
* *Different users have different discriminators* fails, for every hash and every order of
  iteration, exactly when they have the same attribute names with the same text fed to the hash
  for each (`UserAttrs.CollidesIff`). For unmarshalled users that is: at each name two lists, a list
  and the empty text, or a text, an integer and a float that read the same
  (`UserAttrs.UsersCollideIff`). Any other two users are told apart by some hash.
* *No index key leads to a closed client* holds for every nonempty key (`RegistrarLedger.ClientLedger`).
  The empty key leads to one exactly when the client that last had its secondary key taken away in
  place, with none given back in place since, was rebuilt or removed (`RegistrarLedger.EmptyKeyRun`;
  the shortest run is `RegistrarLedger.EmptyKeyOutlives`).
* *The connection counter is right* exactly when every close was of an open connection under its
  own key (`StreamRuns.CounterExact`; the shortest run is `StreamRuns.WrongKeyMiscounts`).
* *A cache entry survives* exactly for a nonempty ETag without newline and a nonempty body
  (`CacheCodec.DecodeEncode`).

## Model

| member | source | states |
|---|---|---|
| `ReconcileRuns.ReconcileEqualsRebuild` | sdk/sdk_auto_registrar.go:173-218 | after any run of refreshes without key takeovers, every reader sees the client configurations, secondary keys and key index that construction from the latest profile alone would give; the registrar is sound |
| `ReconcileRuns.MirrorsIffNoTakeover` | sdk/sdk_auto_registrar.go:187-215 | one refresh ends in the profile for every listing order of both maps if and only if no surviving id takes over a key from another surviving id that is updated too late |
| `Reconcile.MirrorsIffClashFree` | sdk/sdk_auto_registrar.go:389-420 | the same for one given listing order: exact index and table after the refresh if and only if no earlier update takes a key that a later updated id still held |
| `Reconcile.PlanTable` | sdk/sdk_auto_registrar.go:178-216 | for any listing orders, each update of a refresh is applicable when its turn comes and together they turn the served keys into the profile's |
| `Reconcile.RefreshMirrors` | sdk/sdk_auto_registrar.go:173-218 | a clash-free refresh leaves table, options, configurations, ledger and key index those of the profile |
| `Reconcile.RefreshConfigured` | sdk/sdk_auto_registrar.go:186-189 | after a refresh, also one that only changes options or takes over keys, every live client has the poll interval and data governance of the profile, the local offline settings of its id where they apply, and is offline with the cache where only the whole proxy is offline |
| `Reconcile.ClashLosesKey` | sdk/sdk_auto_registrar.go:401-417 | a key taken over from an id that is updated later is missing from the index afterwards |
| `ReconcileRuns.ConstructMirrors` | sdk/sdk_auto_registrar.go:80-92 | construction in any order of the profile's map yields exactly the profile, every client with the configuration prescribed for its id, and publishes nothing |
| `ProfileModel.BuiltRunsAs` | sdk/sdk_auto_registrar.go:300-322 | a built configuration has the given key, the profile's options, and the offline settings that local entry and global mode call for |
| `ProfileModel.RunsAsDetermines` | sdk/sdk_auto_registrar.go:300-322 | these requirements leave nothing but the key open |
| `ReconcileRuns.TakeoverOccurs` | sdk/sdk_auto_registrar.go:389-420 | the shortest takeover from a freshly constructed registrar, for any two ids and distinct keys |
| `ReconcileRuns.TakeoverBreaks` | sdk/sdk_auto_registrar.go:173-218 | for every takeover there are listing orders under which the refresh does not end in the profile |
| `RegistrarLedger.ClientLedger` | sdk/sdk_auto_registrar.go:340-420 | across all refreshes, key takeovers included: every client ever built is the one its id resolves to and never closed, or closed exactly once, and no nonempty key resolves to a closed client or to one without that key |
| `RegistrarLedger.RunNoDeadKey` | sdk/sdk_auto_registrar.go:340-420 | any run of applicable updates keeps every nonempty index key at a live client that has it |
| `RegistrarLedger.EmptyKeyStep` | sdk/sdk_auto_registrar.go:199-208 | the entry of the empty key is written when a secondary key is taken away in place, removed when one is given to a client that lost its own in place, and otherwise left alone |
| `RegistrarLedger.EmptyKeyRun` | sdk/sdk_auto_registrar.go:199-208 | after any run of applicable updates, the client under the empty key is the last one whose secondary key was taken away in place, unless one was given back in place since, and it is closed exactly if it was rebuilt or removed since |
| `RegistrarLedger.EmptyKeyOutlives` | sdk/sdk_auto_registrar.go:340-361 | the shortest run after which the empty key leads to a closed client of an id that is gone |
| `RegistrarRuns.RunSound` | sdk/sdk_auto_registrar.go:340-420 | along any fitting updates: every client ever built is live and never closed or closed exactly once, and the nonempty index keys are exactly the keys of live clients |
| `RegistrarRuns.RunTable` | sdk/sdk_auto_registrar.go:340-420 | the id map follows the updates, and the client ledger stays exact even without fitting keys |
| `RegistrarRuns.StepSound` | sdk/sdk_auto_registrar.go:199-208 | one update keeps ledger, index and distinctness, an in-place change of a secondary key included |
| `RegistrarEffects.RefreshEffect` | sdk/sdk_auto_registrar.go:173-218 | one refresh publishes each added, removed, rebuilt or re-keyed id exactly once and no other, and makes exactly one reporter call, with the new client's configuration, for each added, removed or rebuilt id and none for another; ids that are not rebuilt keep their client object, unchanged ones unmodified |
| `RegistrarEffects.PlanAbout` | sdk/sdk_auto_registrar.go:181-216 | a refresh contains exactly the one update that old and new profile call for at each id |
| `RegistrarEffects.EffectOfRun` | sdk/sdk_auto_registrar.go:340-420 | an id without update keeps client, registration and announcements; an id with one update shows exactly that update's effect |
| `RegistrarEffects.ReporterMirrorsRegistrar` | sdk/sdk_auto_registrar.go:81-92 | through construction and refreshes the reporter is never told to update an id it does not list; what it was last told are the whole configurations of exactly the live clients, and every told configuration is on- or offline as the proxy's own configuration says |
| `Common.ComputeExcept` | internal/utils/utils.go:60-75 | the nested loops return the elements of the first list missing from the second, in order |
| `Common.ExceptElems` | internal/utils/utils.go:60-75 | the result's elements are the set difference, without new duplicates |
| `Common.ExceptConcat` | internal/utils/utils.go:60-75 | the elements of a list are decided one by one, in order, repeated ones included |
| `Common.KeysOfMap` | internal/utils/utils.go:43-49 | lists every key exactly once, in some order |
| `LiveRegistrar.AutoRegistrar.RefreshConfig` | sdk/sdk_auto_registrar.go:173-218 | one poll changes the object exactly as the poll machine and the refresh on values say, for some listing orders |
| `LiveRegistrar.AutoRegistrar.Reconcile` | sdk/sdk_auto_registrar.go:178-216 | the object after applying a profile is the refresh on values of the object before |
| `LiveRegistrar.AutoRegistrar.DeleteSdkClients` | sdk/sdk_auto_registrar.go:340-361 | the loop deletes one id after the other: keys out of the index, client closed, reporter told, id published |
| `LiveRegistrar.AutoRegistrar.AddSdkClients` | sdk/sdk_auto_registrar.go:363-387 | the loop adds the given ids the profile has and the registrar lacks |
| `LiveRegistrar.AutoRegistrar.ResetSdkClients` | sdk/sdk_auto_registrar.go:389-420 | the loop rebuilds each id: old keys out, old client closed, new client stored and indexed |
| `LiveRegistrar.AutoRegistrar.TouchSdkClients` | sdk/sdk_auto_registrar.go:190-211 | the loop updates secondary keys in place and returns the ids whose primary key changed |
| `LiveRegistrar.AutoRegistrar.GetConfig` | sdk/sdk_auto_registrar.go:220-250 | outcome, ETag field and cache entry are those of the poll machine |
| `LiveRegistrar.AutoRegistrar.ParseConfig` | sdk/sdk_auto_registrar.go:252-263 | the ETag field moves only when a body with another ETag parses |
| `LiveRegistrar.NewAutoRegistrar` | sdk/sdk_auto_registrar.go:49-101 | polls once with the placeholder ETag; a failed poll refuses to start, an unchanged one leaves the options missing, and a loaded profile gives a fresh object that is the construction on values for some order of the profile's map and mirrors the profile |
| `LiveRegistrar.AutoRegistrar.Populate` | sdk/sdk_auto_registrar.go:80-92 | builds and indexes a client for each SDK of the profile, tells the reporter, and publishes nothing |
| `PollRuns.PollingEqualsRebuild` | sdk/sdk_auto_registrar.go:220-263 | over any mix of 200, 304, failure, cache hit, cache miss, malformed body and offline reads in which no loaded profile takes over a key from what is served, readers see what construction from the profile of the current ETag alone would show |
| `PollRuns.RunServesETag` | sdk/sdk_auto_registrar.go:252-263 | after every such run the registrar serves the profile its ETag stands for |
| `PollRuns.AnsweredPollServesOrigin` | sdk/sdk_auto_registrar.go:265-298 | an answered poll of a conforming origin whose body parses leaves the origin's current profile served |
| `PollRuns.BootCrashesIff` | sdk/sdk_auto_registrar.go:75-80 | construction meets missing options exactly when its source carries the placeholder ETag |
| `ProfilePoll.AbsentBodyIff` | sdk/sdk_auto_registrar.go:239-241 | a body never received is parsed if and only if an unconditional request is answered 304 while an ETag is held |
| `ProfilePoll.OnlinePollIsCurrent` | sdk/sdk_auto_registrar.go:231-249 | an answered poll of a conforming origin ends at the origin's ETag, or fails only for a malformed body and keeps its ETag |
| `ProfilePoll.EntryDecides` | sdk/sdk_auto_registrar.go:220-241 | offline, after a failed fetch, or told that nothing is new, a readable cache entry decides: unchanged under the held ETag, malformed if its body does not parse, and otherwise loaded together with its ETag |
| `ProfilePoll.CacheUnavailableIff` | sdk/sdk_auto_registrar.go:225-238 | the cache is reported unavailable if and only if the proxy is offline or the fetch failed and the cache holds no entry |
| `ProfilePoll.NotModifiedWithoutEntry` | sdk/sdk_auto_registrar.go:239-241 | without an entry, "not modified" changes nothing when the cache could not be asked, and is an absent body when it was empty or corrupt |
| `ProfilePoll.FetchedDecides` | sdk/sdk_auto_registrar.go:242-249 | a fetched body is parsed under its ETag, weak or not, and written to a writable cache as the entry of that ETag and body |
| `PollRuns.CachedStart` | sdk/sdk_auto_registrar.go:225-238 | a proxy that starts offline or cannot reach the origin serves the profile of the cache entry |
| `PollRuns.CachedStartRefusedIff` | sdk/sdk_auto_registrar.go:75-79 | it refuses to start if and only if there is no entry or the body of an entry with a real ETag does not parse |
| `PollRuns.RestartFromCache` | sdk/sdk_auto_registrar.go:242-249 | what one proxy fetched and wrote, a proxy that later starts offline serves, under the same ETag |
| `PollRuns.CachedStep` | sdk/sdk_auto_registrar.go:231-238 | during a run a proxy that goes by the cache serves the profile of a new entry from then on |
| `CacheCodec.DecodeEncode` | sdk/sdk_auto_registrar.go:454-478 | an entry decodes to what was encoded if and only if its ETag is nonempty and newline-free and its body nonempty |
| `CacheCodec.EncodeDecode` | sdk/sdk_auto_registrar.go:454-471 | every successful decode re-encodes to its input |
| `CacheCodec.DecodeErrors` | sdk/sdk_auto_registrar.go:454-471 | which malformed entry is refused for which reason |
| `CacheCodec.IndexByte` | sdk/sdk_auto_registrar.go:455-458 | finds the first newline, or none |
| `PubSub.DeliveryExact` | pubsub/publisher.go:34-49 | in every interleaving a channel has received exactly the items dequeued while its latest accepted command was to subscribe it |
| `PubSub.HearsStretch` | pubsub/publisher.go:37-44 | between two commands about it a subscribed channel hears one unbroken stretch of the published items, another one nothing |
| `PubSub.QueueIsSuffix` | pubsub/publisher.go:51-58 | published items are those taken followed by those queued, and nothing is accepted after the close |
| `PubSub.SubsAreSubscribed` | pubsub/publisher.go:60-76 | the subscription set is what the accepted commands say |
| `Publisher.Publisher.Dequeue` | pubsub/publisher.go:37-40 | sends the oldest item once to each subscribed channel, whatever the order, and changes no other channel |
| `Publisher.Publisher.Publish` | pubsub/publisher.go:51-58 | appends to the queue unless closed |
| `Publisher.Publisher.Subscribe` | pubsub/publisher.go:60-67 | adds the channel unless closed |
| `Publisher.Publisher.Unsubscribe` | pubsub/publisher.go:69-76 | removes the channel unless closed |
| `ServerAgreement.DisagreementIsPending` | stream/server.go:71-106 | in every interleaving each id is on its way to the server, or server and registrar agree on it and on its client; with nothing on its way they agree on all; at open publishers exactly the open streams of the client are subscribed |
| `ServerAgreement.RunConsistent` | stream/server.go:60-69 | every run from a consistent system stays consistent |
| `ServerAgreement.StartConsistent` | stream/server.go:28-58 | a server started on any registrar agrees with it, for any order of the clients |
| `ServerAgreement.HandleAgrees` | stream/server.go:71-106 | handling an id makes the server agree on it and changes nothing about another |
| `ServerAgreement.HandleTracked` | stream/server.go:74-76 | each open stream stays the only one of its id and holds a client of that id |
| `ServerAgreement.ResetSubs` | stream/stream.go:130-139 | resetting a stream, also to the client it has, leaves it subscribed at that client only |
| `ServerAgreement.OpenSubs` | stream/stream.go:50-68 | a new stream is subscribed at its client only |
| `ServerAgreement.CloseSubs` | stream/stream.go:141-145 | a closed stream is subscribed at no open publisher |
| `ServerAgreement.ClosedSubsStay` | pubsub/publisher.go:60-76 | in every interleaving the subscriptions at a client stay as they were when it was closed |
| `ServerAgreement.OpAnnounces` | sdk/sdk_auto_registrar.go:340-420 | an update announces its id, or leaves every client and registration as it is |
| `ServerKeys.KeyIndexComplete` | stream/server.go:77-92 | in every interleaving each nonempty key of an id with nothing on its way finds that id's stream |
| `ServerKeys.KeyIndexExact` | stream/server.go:77-102 | without in-place replacement or removal of secondary keys no indexed key is stale, and an id's keys resolve if and only if its client has them |
| `ServerKeys.StepComplete` | stream/server.go:71-106 | every step keeps the index complete |
| `StaleKeys.RefreshKeepsIndexIff` | stream/server.go:77-84 | one refresh from an exact quiet state, interleaved with anything, leaves no stale key if and only if it drops no secondary key in place |
| `StaleRuns.StaleIff` | stream/server.go:71-106 | over any number of refreshes, each settled before the next, a key is stale at the end if and only if some refresh took it from its owner in place, or it was stale before, and none gave it back since |
| `StaleRuns.RefreshStale` | stream/server.go:77-102 | one refresh from rest to rest leaves a key stale exactly when it took the key in place, or the key was stale and not offered |
| `StaleKeys.StepOrphaned` | stream/server.go:78-104 | a stale key stays, whatever is handled or removed, until some id is given it again |
| `StaleKeys.RunDrops` | sdk/sdk_auto_registrar.go:203-207 | a run that drops an indexed secondary key in place leaves it stale |
| `StaleKeys.ReplacedSecondaryStays` | stream/server.go:77-84 | the shortest such run, for any id, keys and configuration |
| `Pipeline.StreamsFollowProfiles` | stream/server.go:28-106 | after any refreshes, once nothing is on its way, there is one stream per id of the latest profile, holding the registrar's client with the profile's keys, and each nonempty key finds it |
| `Pipeline.PlansRun` | sdk/sdk_auto_registrar.go:154-171 | a run of refreshes is one run of applicable updates that ends in the latest profile |
| `LiveServer.NewServer` | stream/server.go:28-58 | the loop over all clients opens and indexes one stream each, as on values, for some order |
| `LiveServer.Server.HandleSdkId` | stream/server.go:71-106 | the object after handling an id is the reaction on values to the registrar's current state |
| `LiveServer.Server.Refollow` | stream/server.go:77-92 | a listed stream loses its client's current keys, is reset, and gets the new client's keys |
| `LiveServer.Server.ResetSdk` | stream/stream.go:130-139 | swaps the client and moves the subscription unless the stream is closed |
| `LiveServer.Server.Retire` | stream/server.go:95-103 | an unlisted stream loses its keys and subscription and is closed |
| `StreamRuns.ConnectionTable` | stream/stream.go:151-184 | after any run no bucket or channel is empty, each open connection sits in exactly one channel, once, at its own key and discriminator, all-flags channels sit under the reserved key only, members last received their channel's last payload, and later joiners' histories are suffixes of earlier ones' |
| `StreamRuns.AllClosedIsEmpty` | stream/stream.go:168-184 | the table is empty if and only if every connection was closed |
| `StreamRuns.HeldIsOpen` | stream/channel.go:97-117 | a connection is held if and only if it was opened and not closed under its own key since |
| `StreamRuns.CounterExact` | stream/stream.go:70-92 | the counter is the number of held connections less the spurious closes, so right if and only if there are none |
| `StreamRuns.WrongKeyMiscounts` | stream/stream.go:79-83 | the shortest wrong count: a connection closed under another key stays held but is not counted |
| `StreamRuns.SentIsReceived` | stream/stream.go:186-199 | the reported message counts add up to all payloads ever received |
| `StreamRuns.FirstConnection` | stream/channel.go:59-74 | the first connection of a flag and user receives, while open, the initial value and variation and those of all successful evaluations, with adjacent repetitions of a value removed |
| `StreamRuns.SendOnChange` | stream/channel.go:59-74 | the same for any connection whose history starts with one payload, evaluated for its channel's user |
| `StreamRuns.CompressKeeps` | stream/channel.go:59-74 | the payloads that remain are, in order, exactly those whose value differs from that of the one before |
| `StreamRuns.CompressAlternates` | stream/channel.go:59-74 | a client never receives the same value twice in a row |
| `StreamRuns.AllFlagsHistory` | stream/channel.go:76-95 | a connection to all flags receives one message for every nonempty evaluation, repeated or not, with exactly the evaluated flags, each with its own value and variation |
| `StreamRuns.FirstToAllFlags` | stream/channel.go:35-44 | the first such connection of a user also receives, before that, the evaluation at its opening |
| `StreamRuns.ServedForOwnUser` | stream/stream.go:106-119 | unless two users of the run share a discriminator, each connection is served for its own user |
| `StreamInvariants.StepKeepsInv` | stream/stream.go:70-92 | every event keeps table, histories and message count consistent |
| `StreamInvariants.JoinOk` | stream/stream.go:158-166 | a joining connection is replayed the last payload and keeps the channel in order |
| `StreamInvariants.WithoutIs` | stream/channel.go:101-113 | removal takes out exactly the connection, without duplicating another |
| `StreamNotify.PartStep` | stream/stream.go:186-199 | notifying one channel after the other, in any order, adds exactly that channel's part |
| `StreamNotify.AllDone` | stream/stream.go:189-195 | once all channels are notified the result does not depend on the order |
| `LiveStream.Stream.Establish` | stream/stream.go:73-77 | the object after a new connection is the event on values |
| `LiveStream.Stream.Release` | stream/stream.go:79-83 | the object after a closed connection is the event on values |
| `LiveStream.Stream.NotifyConnections` | stream/stream.go:186-199 | the nested loops over the maps do what one notification of all channels does |
| `LiveStream.Channel.Notify` | stream/channel.go:59-95 | evaluates anew, keeps and sends exactly a changed value or a nonempty set of flags, and counts what it sent |
| `LiveStream.Channel.RemoveConnection` | stream/channel.go:101-113 | the search loop removes the first occurrence only |
| `LiveStream.Channel.constructor` | stream/channel.go:35-49 | a new channel holds the first evaluation, even a failed one |
| `StatusRuns.HealthClosedForm` | diag/status/status.go:182-230 | after any run the records are the last five of all reports on an SDK, each with the report's own error flag, time and marked message (shown once there was one since the registration), an SDK is listed exactly while registered, and its health follows from the flags of all those reports: initializing without any, healthy unless the last two are errors, down if it never was healthy since its registration, else degraded |
| `StatusRuns.CacheClosedForm` | diag/status/status.go:116-127 | after any run the cache shows the last five reports on it, with flags, times and messages, and its health is the verdict over all of them unless a later registration made it not applicable |
| `StatusRuns.OnceHealthyNeverDown` | diag/status/status.go:204-207 | an SDK once healthy is never down before it is registered anew |
| `StatusRuns.WindowFails` | diag/status/status.go:212-230 | the verdict over the kept records is that over all reports: at most the last two count |
| `StatusRuns.AppendedKeeps` | diag/status/status.go:182-200 | one more report is recorded last, as it was made, and only the sixth record back is dropped |
| `StatusOverall.OverallExactIff` | diag/status/status.go:232-253 | the overall health is what the reports add up to if and only if it was recalculated since the last registration, or at the last recalculation the registered SDKs were neither all down nor all healthy; a report on a registered SDK, a registration that logs an error and a removal recalculate |
| `StatusOverall.OverallIs` | diag/status/status.go:182-210 | only a recalculation changes the overall health: to down if every registered SDK is or none is left, to healthy if every one is, and to degraded otherwise |
| `StatusOverall.OverallReads` | diag/status/status.go:232-253 | what a recalculation computes from the listed SDKs is what all reports and registrations so far add up to |
| `StatusOverall.NewSdkIsOverlooked` | diag/status/status.go:103-131 | the shortest run with an inexact overall health, for any two ids and configurations |
| `StatusRuns.ReporterListsRegistrar` | diag/status/status.go:103-148 | with any reports in between, the registrar's calls never update an unknown id, and the reporter lists exactly the registrar's ids, with all but the last five characters of their primary keys hidden and with mode and source as the proxy's own configuration gives them |
| `StatusReporter.Reporter.CheckStatus` | diag/status/status.go:212-230 | the counting loop reports degraded exactly when the last at most two records are all errors |
| `StatusReporter.Reporter.ReCalcStatus` | diag/status/status.go:232-253 | for any iteration order: down if all SDKs are down or there is none, healthy if all are healthy, else degraded |
| `StatusReporter.Reporter.AppendRecord` | diag/status/status.go:182-210 | the object after a report is the report on values |
| `StatusReporter.Reporter.RegisterSdk` | diag/status/status.go:103-131 | the object after a registration is the registration on values; old records stay |
| `StatusReporter.Reporter.UpdateSdk` | diag/status/status.go:133-139 | replaces the shown key of a listed SDK |
| `StatusReporter.Reporter.RemoveSdk` | diag/status/status.go:141-148 | forgets SDK and records and recalculates |
| `Status.Obfuscate` | internal/utils/utils.go:34-41 | keeps the length and shows at most the last characters |
| `UserAttrs.Discriminator` | model/user_attrs.go:31-57 | the loop returns the same value whatever order the attributes are visited in |
| `UserAttrs.OrderIndependent` | model/user_attrs.go:54 | folding the terms of two listings of the same attributes gives the same result |
| `UserAttrs.FewAttributes` | model/user_attrs.go:34-56 | no attribute gives zero, a single one the mix of the hashes of its name and its text |
| `UserAttrs.CollidesIff` | model/user_attrs.go:31-57 | two users collide under every hash if and only if they have the same attribute names with the same text written for each; any others are told apart by some hash |
| `UserAttrs.UsersCollideIff` | model/user_attrs.go:38-53 | for unmarshalled users: the same names with, at each, two lists, a list and the empty text, or a text, an integer and a float that read the same |
| `UserAttrs.AlikeIff` | model/user_attrs.go:38-53 | two unmarshalled values write the same text exactly in those cases; different integers never do |
| `UserAttrs.RenderedReads` | model/user_attrs.go:43-44 | an integer is written in decimal without leading zeros, with a minus sign if negative: evaluating the digits gives it back |
| `UserAttrs.AnyListReads` | model/user_attrs.go:47-52 | of a generic list the strings are written one after the other, and other items not at all |
| `UserAttrs.ListsDoNotDiscriminate` | model/user_attrs.go:38-53 | users that differ only in what their lists contain get the same discriminator |
| `UserAttrs.UnmarshalFrom` | model/user_attrs.go:79-97 | fails if and only if some value has an unsupported type, and otherwise keeps each text, integer and float as it is, and of each list exactly the strings, in their order |

## Left out

- Flag evaluation, config download and parsing: they belong to the external ConfigCat SDK; a snapshot gives the evaluations of the moment, and decoding a profile is an arbitrary partial function.
- Cache backends, HTTP and gRPC servers, router, middleware, telemetry, logging, TLS, webhooks, configuration loading and file watchers.
- Closing the registrar or a stream server during a run, and commands that race with a publisher's close: every loop iteration and every command is one atomic step.
- The order within one registrar update: an update and its notification are one step. The rebuild publishes before it stores the new keys, which a server that looks up by id cannot see.
- `NewServer` reads all clients and then subscribes; the model does both in one step.
- Back-pressure of the 64-slot buffers: a receive queue is an unbounded history.
- Timestamps of records are given from outside and their text format is not modelled.
- Per-SDK settings that do not take part in reconciliation (base URL, log level, default attributes, webhook settings): copied unchanged when a client is built.
- `ReconcileRuns.ReconcileEqualsRebuild`: an SDK's secondary key that was set to the empty string counts as equal to a missing one, since no reader tells them apart; the index entry of the empty key is not compared.
- `StreamRuns.ServedForOwnUser`: collision-freedom of the hash is an assumption about the users of one run, not a claim.
- Closing a client is modelled by counting closes; what closing releases inside the external SDK is not.
- `LiveStream.Channel.Notify`: the two channel kinds are one class that branches on the kind of its last payload; an interface with two implementations would say no more.
- `LiveServer.Server.ResetSdk`: the subscription sets of all clients' publishers are one relation instead of one set per publisher object; what a publisher does with its set is `Publisher`.
- `Status.Obfuscate`: characters stand for bytes, so keys with multi-byte characters are not modelled.
- `StaleRuns.StaleIff`: refreshes whose notifications are still on their way when the next one starts are not characterised; completeness of the index holds for them as well (`ServerKeys.KeyIndexComplete`).
- The first notification of an online client after initialisation, which is swallowed, and polling by tickers.
