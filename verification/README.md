# The troposphere node, modelled and verified

A troposphere node is a set of tasks that share a few maps and one queue. Netlayer loops produce CapTP sessions;
each session has a loop that answers fetches in racing tasks; a gateway checks signatures and asks the manager
for portals; portals let a peer put an outbox into a channel; the channel's owner broadcasts through the
outboxes; the user interface follows sessions in two maps; the mDNS loop keeps the peers of the local network.
No lock spans two operations, so what the node guarantees is what every interleaving keeps.

This project states those guarantees and proves them. It has two layers:

- **Step relations** (`Node`, `Broadcast`, `Gui`, `Netlayers`, and the event function of `Mdns`): the state is the
  code's queues, maps and task sets, one step is what a task does between two points where another may run, and
  a run is any finite interleaving. The theorems are about all runs.
- **Classes** (`ChatNode`, `ChannelLoop`, `ManagerLoop`, `NetlayerManager`, `MdnsListener`): their fields are the
  code's maps and queues, updated in place by methods that follow the code's functions and loops. Every method's
  contract says which steps it takes and what it leaves. From any state that a run has led to, those steps continue
  the run, so what is proved of all runs holds where the method ends (the four lemmas named `StretchOfRun`). What
  comes from outside (a session, a call, a signature, a delivered message, the end) is a method of one step, and two
  clients go from a new object to its main results with these methods alone (`Visit.FirstGuest`, `NetlayerLife.Live`).

Syrup encodings and signed messages (`Syrup`, `Messages`) are functions with their parser.

## Modules

| file | what it holds |
|---|---|
| `Foundation.dfy`, `Paths.dfy` | keys, ids, an ideal signature record; stretches of runs |
| `Syrup.dfy`, `Messages.dfy` | the Syrup printer and parser; the signed bytes of messages, and what authentication accepts |
| `Node.dfy` | the node's step relation |
| `Growth.dfy` | what steps only extend, and the structure every state has |
| `Authority.dfy`, `Inbound.dfy`, `GatewayAccess.dfy`, `Fetching.dfy`, `Hooks.dfy`, `Promises.dfy`, `Dropping.dfy`, `Lifecycle.dfy`, `Channels.dfy`, `Serial.dfy`, `Race.dfy` | theorems about all runs of the node |
| `ChatNode.dfy`, `Visit.dfy` | the node as an object, and a guest's visit to it |
| `Broadcast.dfy`, `ShownMessages.dfy`, `Reconnects.dfy`, `ChannelLoop.dfy` | a channel's broadcasts as steps, what is shown of peers, peers that connect again, and the loop as an object |
| `Feed.dfy`, `Gui.dfy`, `StalePortals.dfy`, `GuiLoop.dfy` | the user interface's manager loop as steps and as an object, fed by what a node returns |
| `Netlayers.dfy`, `Requests.dfy`, `NetlayerLoop.dfy`, `NetlayerLife.dfy` | netlayers, connect requests and the end flag, as steps and as an object with its whole life |
| `Reach.dfy`, `Sessions.dfy` | the node together with the broadcasts of a channel, and with the netlayers |
| `Mdns.dfy` | the mDNS event loop |

## Assumptions

CapTP (the OCapN CapTP and Syrup specifications) is abstracted, since its implementation is another project:

- each session has a fresh key and a table from positions to exported objects that only grows;
- a session can call an object only at a position where that object was exported to it (bootstrap `fetch`
  apart, which is an event of the session);
- calls made on one remote object are delivered in the order they are made, each at most once; but a call that was
  delivered may still be carried out when the next one is, also of the same session (on this the race of two connect
  calls depends, since each of them is a function that does not await);
- an object's `exported` hook runs before the export call returns, but another task may run between the export
  and the hook;
- a resolver that is not settled when its holder goes away is dropped.

A signature passes for a key and bytes exactly when that key signed those bytes with that result (ideal Ed25519,
section 5.1 of RFC 8032). The way a verifying key is written in Syrup is a parameter; only its injectivity is
used. Each operation on a concurrent map is one step; an iteration over one visits every entry that was there when it
began, and each key at most once. Fresh ids, signatures, the outcome of a network call, the order in which tasks are
joined and the Base64 decoding of a key are parameters or nondeterministic choices.

## What the code does not do

Six statements that one might expect of the code are false; each is shown by a run from the initial state, and the
exact condition under which it holds is proved beside it.

- A channel can be exported twice to one session (`Race.RaceRun`, whose last eight steps are
  `Serial.RacingConnectsExportTwice`). That happens exactly when a connect call finds the channel unexported while
  another call of the session is between its lookup and its hook (`Serial.SingleIff`, `Serial.ExportedOnceIff`); so
  never when the connects of a session run one after another (`Serial.SerialConnectsAgree`).
- The two maps of the user interface do not always have the same keys: an answer to a channel list that is handled
  after its session's abort leaves an entry behind (`Gui.LateAnswerLeavesEntry`). They differ in exactly that
  case (`Gui.MapsAgree`).
- A portal of an aborted session can be kept (`StalePortals.StaleRun`), and then it and its display entry are kept for
  ever (`StalePortals.StaleForEver`). A kept portal is of an aborted session exactly if the abort was handled before
  the portal opened (`StalePortals.StaleIff`).
- A message can be shown that its sender never signed, since nothing calls `Message::verify_strict`
  (`ShownMessages.UnsignedShown`). All that is shown of peers is signed exactly if all that was delivered and taken is
  (`ShownMessages.ShownGenuineIff`).
- The mDNS peer list can keep a peer whose only name now belongs to another (`Mdns.RenamedPeerStays`), exactly
  when an event takes a peer's only name (`Mdns.PeersNamedIff`); and it can lose a peer that still has a live
  name (`Mdns.AliasedPeerVanishes`), exactly when an event removes one of several names (`Mdns.NamesListedIff`).
- A promise need not be settled: dropping `recv_event` while it fulfils a portal request drops the resolver
  (`Dropping.CancelDropsPromise`). A promise that is no longer under way was settled exactly if no step dropped it
  (`Dropping.SettledUnlessDropped`), and the steps that drop one are named (`Dropping.DroppedIff`); none is ever
  settled twice (`Promises.SettledAtMostOnce`).

The gateway checks the signature of whatever bytes a caller brings and does not look at what they say. What it then
accepts is stated exactly: bytes that the key signed, be it to authenticate or as a message
(`Messages.AuthenticationPurpose`).

Registered channels are kept in a map of the manager that fetches do not read (`manager.rs:138-140` and `73-80`);
the map they read is filled nowhere. The model follows the code: fetch resolution is a fixed partial function.

## Model

| member | source | states |
|---|---|---|
| Authority.OutboxAuthority | lib/troposphere-lib/src/portal.rs:39-60 | In every run, every outbox of every channel, stored under session `k` with peer key `p`, goes back to four steps in order: the gateway verified `p` on `k` and queued the request, the manager exported `p`'s portal to `k`, `k` called connect on that portal naming that very channel's id and that outbox, and the outbox was installed in that channel, which is registered. |
| Authority.OutboxOrigin | lib/troposphere-lib/src/channel.rs:206-220 | An outbox in a channel was put there by the install step of a connect call of its session that held this channel, registered under the id the call named; with the key of that call's portal. |
| Authority.ConnectOrigin | lib/troposphere-lib/src/portal.rs:161-185 | A connect task was made by a call of its session, with its channel id and its outbox, on a position where that very portal had been exported. |
| Authority.AlwaysNamed | lib/troposphere-lib/src/portal.rs:168-180 | In every interleaving a connect call that is past its lookup holds a channel that carries the id the call named, and this id is registered. |
| Authority.CallAuthority | lib/troposphere-lib/src/portal.rs:161-185 | Every connect call has a call step, a grant of its portal to its session before it, and before that a verified signature of the portal's key on that session. |
| Authority.PortalExportOrigin | lib/troposphere-lib/src/manager.rs:180-197 | A portal in a session's table was exported by the manager on a portal request of that session and of the portal's peer key. |
| Authority.RequestOrigin | lib/troposphere-lib/src/portal.rs:48-58 | A portal request on the queue was put there by an authenticate call of its session whose signature passed for its peer key. |
| GatewayAccess.AuthenticationOrigin | lib/troposphere-lib/src/portal.rs:39-48 | Every authentication goes back to two steps in order: the gateway was exported to its session in answer to a fetch of `b"gateway"`, and the session called it at that position with the key, bytes and signature that are checked. |
| Authority.ConnectedAreInstalled | lib/troposphere-lib/src/channel.rs:206-220 | A channel reports as connected, in order, the keys of the portals through which outboxes were installed in it, each once per install. |
| Inbound.ChannelExportOrigin | lib/troposphere-lib/src/portal.rs:174-178 | A channel that no fetch answers with is at a position of a session's table only if a connect of that session exported it to exactly that position. |
| Inbound.InboundAuthority | lib/troposphere-lib/src/channel.rs:224-231 | Every session that can call such a channel, and so send into it, was invited: by a chain from a verified signature over a granted portal to a connect call that named this channel, or by the node's own connect over that session, which made the channel. |
| Growth.AlwaysValid | lib/troposphere-lib/src/manager.rs:142-203 | In every reachable state every task, call, queued event, exported object, portal and registered channel refers to things that exist and agree with it. |
| Growth.RunGrows | lib/troposphere-lib/src/manager.rs:138-140 | Export tables, tasks, calls, the queue, settled promises, portals and registered ids only ever grow along a run. |
| Fetching.CachedFetchRefinesUncached | lib/troposphere-lib/src/manager.rs:152-164 | In every interleaving, also when two tasks miss the cache for one swiss number, a settled fetch of `b"gateway"` is fulfilled with a position that denotes the gateway, one of the sixteen bytes of a known id with a position that denotes that channel, and any other is broken; every cached position denotes what its swiss number names in the same way; so the cache changes nothing of the manager's answer. |
| Hooks.AlwaysTold | lib/troposphere-lib/src/channel.rs:244-249 | In every interleaving a channel that a fetch task of a session has exported, or that is in the session's registry, remembers a position of that session. |
| Hooks.FetchedIsFound | lib/troposphere-lib/src/portal.rs:174-177 | So when a session connects to a channel that it has fetched, the lookup finds it exported and nothing is exported. |
| Fetching.AlwaysOneShot | lib/troposphere-lib/src/manager.rs:152-164 | Each waiting fetch task has exactly one request, still queued, so no answer is lost, given twice, or given to another task. |
| Promises.AlwaysLinear | lib/troposphere-lib/src/session.rs:51-78 | At every state every fetch or authenticate resolver is in exactly one place: its task, the queue, the manager's hand, settled, or dropped. |
| Promises.SettledAtMostOnce | lib/troposphere-lib/src/manager.rs:197-200 | No promise is settled twice, dropped twice, or settled and dropped, however often `recv_event` is dropped. |
| Promises.AuthenticationOutcome | lib/troposphere-lib/src/portal.rs:46-60 | An authentication whose signature failed is never queued and only ever broken; a fulfilled one got the portal of the key it verified, at a position of its own session. |
| Promises.RejectedFailed | lib/troposphere-lib/src/portal.rs:48-53 | A rejected call was rejected by a step at which its signature did not pass. |
| Dropping.DroppedIff | lib/troposphere-lib/src/manager.rs:197-200 | Over any run, the promises dropped unsettled are exactly those of which some step aborted the task, failed to settle them, or dropped `recv_event` with them in hand. |
| Dropping.SettledUnlessDropped | lib/troposphere-lib/src/session.rs:51-78 | A promise that is no longer with its task, on the queue or in hand was settled exactly if no step of the run dropped it. |
| Dropping.CancelDrops | lib/troposphere-lib/src/manager.rs:180-200 | Any run that has a session with the gateway and nothing queued can go on with a verified authentication whose promise is dropped when `recv_event` is. |
| Dropping.CancelDropsPromise | lib/troposphere-lib/src/manager.rs:180-200 | A run, from the initial state, that ends with the promise of a verified authentication dropped. |
| Lifecycle.AlwaysOrdered | lib/troposphere-lib/src/session.rs:86-130 | For each session the queue has at most one start, then at most one abort, and every fetch request of the session after its start. |
| Lifecycle.LoopEndsOnce | lib/troposphere-lib/src/session.rs:86-132 | A session's loop ends at most once and receives nothing after; a fetch task is aborted only after the loop of its session has ended. |
| Lifecycle.CancelSafe | lib/troposphere-lib/src/manager.rs:142-203 | If `recv_event` is dropped at any await point any number of times, what it returned over the run is exactly the started, aborted and task-finished events dequeued, in queue order. |
| Lifecycle.ReportsReturnedInOrder | lib/troposphere-lib/src/manager.rs:142-179 | Over any run, what `recv_event` returned is, in order and with nothing left out, what netlayers announced, session loops reported with the peer's reason, and subtasks finished with; all of it when the queue is empty. |
| Lifecycle.SessionMapExact | lib/troposphere-lib/src/manager.rs:165-179 | The session map holds exactly the keys dequeued as started and not yet dequeued as aborted. |
| Feed.NodeFeedsAdmissible | lib/troposphere-lib/src/manager.rs:165-179 | What a node without subtasks returns starts each session at most once and aborts it at most once, after its start. |
| Channels.OnePortalPerPeer | lib/troposphere-lib/src/manager.rs:189-196 | Over a whole run a peer key has one portal, which carries that key, and no two portals carry one key. |
| Channels.ListedChannelsRegistered | lib/troposphere-lib/src/portal.rs:153-159 | The list call made at a step of a run is answered with every id registered at that step, with none that is not registered, with none twice, and with exactly the registered ids when none is registered meanwhile; each with the info of a channel that was registered under the id since; to the session that called, on a portal that was exported to it. |
| Channels.ChannelsAsMade | lib/troposphere-lib/src/channel.rs:171-186 | In every state of every run a channel has the id, the name and the description with which a step made it. |
| Channels.ConnectFindsRegistered | lib/troposphere-lib/src/portal.rs:168-170 | A connect call finds a channel exactly when its id is registered, and then one that carries the id; an id once listed is found ever after. |
| Channels.PositionsDenoteChannels | lib/troposphere-lib/src/channel.rs:244-249 | In every interleaving a channel's cached position for a session, and every position a connect call returns, denote that channel in that session's table. |
| Serial.SingleIff | lib/troposphere-lib/src/portal.rs:174-178 | Over any run, a channel that no fetch resolves to is at one position of a session's table, or about to be, exactly as long as no connect found it unexported while another one of the session was between lookup and hook. |
| Serial.ExportedOnceIff | lib/troposphere-lib/src/portal.rs:174-184 | Whenever no connect of the session is about to export the channel, it is at most once in the session's table exactly if no connect raced; and then all connects returned the same position. |
| Serial.SerialConnectsAgree | lib/troposphere-lib/src/portal.rs:174-184 | When the connects of each session run one after another none races, so the channel is exported at most once to a session, and all connects of the session to it return the same position. |
| Serial.RacingConnectsExportTwice | lib/troposphere-lib/src/portal.rs:174-178 | From any state with a portal and a channel not yet exported, two racing connects can export the channel twice. |
| Race.RaceRun | lib/troposphere-lib/src/portal.rs:161-185 | A run, from the initial state, that ends with one channel at two positions of one session's table, though no fetch answers with it. |
| ChatNodes.ChatNode.constructor | lib/troposphere-lib/src/manager/builder.rs:86-110 | A built node is in the initial state of the step relation, with nothing to fetch but the gateway. |
| ChatNodes.ChatNode.RecvEvent | lib/troposphere-lib/src/manager.rs:142-203 | Takes events up to the first it returns, which it returns unchanged; without one it empties the queue; all it does on the way are its own turns (a fetch answered, a portal granted and fulfilled), one receipt per event; the state stays valid. |
| ChatNodes.ChatNode.TakeReturned | lib/troposphere-lib/src/manager.rs:151-179 | A turn on a started, aborted or task-finished event updates the session map and returns exactly that event, with its reason or result. |
| ChatNodes.ChatNode.ServeRequest | lib/troposphere-lib/src/manager.rs:152-200 | A turn on a fetch request answers it; one on a portal request grants it and then fulfils it or loses it with an error; these are all its steps. |
| ChatNodes.ChatNode.ExportPortal | lib/troposphere-lib/src/manager.rs:189-196 | A portal request reuses the peer's portal or makes one, exports it at the next position of the requesting session, and holds that position with the call's resolver, as one step. |
| ChatNodes.ChatNode.PortalOf | lib/troposphere-lib/src/manager.rs:190-195 | The peer's portal is the one it has, or else a new one that carries its key; all others are untouched. |
| ChatNodes.ChatNode.FulfillPortalRequest | lib/troposphere-lib/src/manager.rs:197-199 | The resolver in hand is fulfilled with the portal's position, or lost with an error, and nothing else is settled or lost; the manager goes on. |
| ChatNodes.ChatNode.AnswerFetch | lib/troposphere-lib/src/manager.rs:152-164 | The waiting task of a fetch request is answered with the gateway for `b"gateway"`, with the channel for the sixteen bytes of a known id, and with a refusal for anything else; no other task changes. |
| ChatNodes.ChatNode.RegisterChannel | lib/troposphere-lib/src/manager.rs:138-140 | The channel is registered under its id, and the one it replaces is returned. |
| ChatNodes.ChatNode.Authenticate | lib/troposphere-lib/src/portal.rs:39-60 | The request is queued, with its resolver and nothing else settled, exactly when the signature passes; otherwise it is broken and nothing is queued. |
| ChatNodes.ChatNode.BeginFetch | lib/troposphere-lib/src/session.rs:51-61 | A cached swiss number is answered from the registry and asks nothing; any other is asked for, once. |
| ChatNodes.ChatNode.FulfillFetch | lib/troposphere-lib/src/session.rs:64-71 | An answered fetch exports the object, caches its position and is fulfilled with it; the stretch is a path of single steps. |
| ChatNodes.ChatNode.ExportAnswer | lib/troposphere-lib/src/session.rs:64-65 | The object is exported at the next position of the session's table and told so by its hook, in two steps. |
| ChatNodes.ChatNode.CacheExported | lib/troposphere-lib/src/session.rs:66-70 | That position is cached and the fetch fulfilled with it, in two steps, which end where the whole answer does. |
| ChatNodes.ChatNode.BreakFetch | lib/troposphere-lib/src/session.rs:72-75 | A refused fetch is broken, and nothing is exported or cached. |
| ChatNodes.ChatNode.Meanwhile | lib/troposphere-lib/src/session.rs:86-98 | While a session's loop waits, another task may go on by steps of the node; everything only grows. |
| ChatNodes.ChatNode.ManageSession | lib/troposphere-lib/src/session.rs:86-142 | One fetch task for every fetch before the input that breaks the loop, in order, none after, while the tasks go on; an abort event is sent exactly for a peer's abort; then every task of the session is done; the state stays valid. |
| ChatNodes.ChatNode.DrainFetches | lib/troposphere-lib/src/session.rs:131-142 | Every fetch task of the session ends, no other task changes, no promise is settled, the state stays valid. |
| ChatNodes.ChatNode.ListChannels | lib/troposphere-lib/src/portal.rs:153-159 | An uninterrupted list call is a path of single steps and answers with exactly one listing for each registered id, with its channel's info. |
| ChatNodes.ChatNode.Connect | lib/troposphere-lib/src/portal.rs:161-185 | An uninterrupted connect is a path of single steps to the state `AfterConnect` and returns the position that state records, or nothing for an unknown id. |
| ChatNodes.ConnectGivesChannel | lib/troposphere-lib/src/portal.rs:161-185 | The returned position denotes the named channel in the caller's table and is remembered by the channel; the channel has the caller's outbox under the key of the caller's portal and reports that peer; its id and info and all other channels and outboxes are as before. |
| ChatNodes.ConnectTwiceAgrees | lib/troposphere-lib/src/channel.rs:199-204 | A later connect of the same session to the same channel exports nothing and returns the same position. |
| ChatNodes.ChatNode.RemoteConnect | lib/troposphere-lib/src/portal.rs:246-258 | A new channel is exported to the portal's session at the next position, which the channel remembers; a path of single steps. |
| Visit.FetchGateway | lib/troposphere-lib/src/session.rs:51-71 | A running session that has not fetched the gateway is given a position that denotes it, by the node's own methods; nothing else is exported and no channel changes. |
| Visit.ProveKey | lib/troposphere-lib/src/portal.rs:39-60 | A session that brings a signature that was made is given a position that denotes the signer's portal. |
| Visit.Join | lib/troposphere-lib/src/portal.rs:161-185 | A session with a portal that names a registered id is given a position that denotes its channel, and its outbox is in the channel under the portal's key. |
| Visit.FirstGuest | lib/troposphere-lib/src/portal.rs:217-231 | From a new node, by its own methods, to a session that proved a key, was granted the key's portal and is connected to a registered channel under that key; what happens is a run. |
| ChatNodes.AnswerPath | lib/troposphere-lib/src/session.rs:63-76 | An answered fetch task that is not interrupted reaches its end by single steps. |
| ChatNodes.StretchOfRun | lib/troposphere-lib/src/manager.rs:142-203 | Where a method leaves a node that a run has led to, the run goes on to there, and all the invariants of runs hold. |
| Syrup.DecodeEncode | lib/troposphere-lib/src/channel.rs:43-45 | Every encoding is self-delimiting: parsing it with any bytes behind gives back the value and those bytes, including the decimal length prefixes. |
| Syrup.DecodeIffEncode | lib/troposphere-lib/src/channel.rs:43-45 | Bytes start with a value's encoding exactly when the parser reads that value there, so the encoding is canonical. |
| Syrup.UuidRoundTrip | lib/troposphere-lib/src/lib.rs:39-51 | Deserializing gives an id of sixteen bytes and a rest exactly for the serialized id followed by that rest; byte strings of any other length are refused. |
| Syrup.UuidBytes | lib/troposphere-lib/src/lib.rs:47-51 | An id is written as `16:` and its sixteen bytes. |
| Messages.ReadFieldsToBytes | lib/troposphere-lib/src/channel.rs:42-47 | The concatenated encodings are read back to the three fields they were made from. |
| Messages.SignedForm | lib/troposphere-lib/src/channel.rs:42-47 | What is signed is `16:` and the id's bytes, the encoded key, and the text's length in decimal, a quotation mark and the text, in this order. |
| Messages.FieldsUnambiguous | lib/troposphere-lib/src/channel.rs:42-47 | The signed bytes of two messages are equal exactly when id, sender and text are. |
| Messages.GatewayBytesAreNoMessage | bin/troposphere/src/gui/chat.rs:98-107 | The bytes signed to open a portal, `b"FIXTHIS"`, are never the signed bytes of a message. |
| Messages.VerifiesIffSigned | lib/troposphere-lib/src/channel.rs:73-78 | A message passes `verify_strict` under a key exactly when that key signed that very id, sender and text. |
| Messages.NewVerifies | lib/troposphere-lib/src/channel.rs:58-71 | A new message has the id, sender and text it was made from and the signature made of them; it passes under its signing key; and making it lets nothing pass but a message of these fields under this key. |
| Messages.AuthenticationPurpose | lib/troposphere-lib/src/portal.rs:39-52 | On the bytes that nodes sign to authenticate it passes exactly for a key that signed them for that; on the signed bytes of a message exactly for a key that signed that message. |
| Broadcast.DeliversRun | lib/troposphere-lib/src/channel.rs:188-197 | Each send task delivers the message it was spawned with; through every outbox ever made, the messages delivered are a contiguous run of the owner's messages, in order, each once, beginning with the broadcast under way when it was made or the next one. |
| Broadcast.DeliversAll | bin/troposphere/src/gui/chat.rs:437-459 | Whenever the loop is back at its next command, a session's outbox has carried every message from its first broadcast to the last. |
| Broadcast.ReplacedIsFinal | lib/troposphere-lib/src/channel.rs:206-214 | Once an outbox is replaced and its last send has ended, nothing more goes through it. |
| Broadcast.AlwaysShown | bin/troposphere/src/gui/chat.rs:447-467 | The message list is an interleaving of the completed broadcasts and the received messages, each in order and once. |
| Broadcast.ShownGrows | bin/troposphere/src/gui/chat.rs:447-467 | The message list only ever grows at its end. |
| Broadcast.NothingShownMeanwhile | bin/troposphere/src/gui/chat.rs:437-459 | While a broadcast is under way nothing is shown. |
| Broadcast.StopsOnlyOnFailure | bin/troposphere/src/gui/chat.rs:452-454 | The loop stops only after a send that failed. |
| ShownMessages.ShownIffTaken | bin/troposphere/src/gui/chat.rs:461-467 | A message of a peer is shown exactly if it was delivered and its event taken. |
| ShownMessages.ShownGenuineIff | bin/troposphere/src/gui/chat.rs:461-467 | All that is shown of peers passes under its senders' keys exactly if all that was delivered and taken does. |
| ShownMessages.UnsignedShown | lib/troposphere-lib/src/channel.rs:224-231 | A run, from the initial state, that shows a message its sender never signed. |
| Reconnects.NextOutboxTakesOver | lib/troposphere-lib/src/channel.rs:206-214 | In a run without a failed send, a session's next outbox begins exactly where the one before it ended. |
| Reconnects.ReconnectLosesNothing | lib/troposphere-lib/src/channel.rs:188-214 | In such a run, all that a session received through all its outboxes is one contiguous run of the owner's messages, which at the loop's next command reaches to the last. |
| ChannelLoops.ChannelLoop.Broadcast | lib/troposphere-lib/src/channel.rs:188-197 | A command ends with the message delivered exactly once through the outbox of every session, through no other, and shown; or with the loop stopped by a send error and nothing shown. |
| ChannelLoops.ChannelLoop.BeginBroadcast | bin/troposphere/src/gui/chat.rs:446-452 | A command is taken and its message is with exactly one send task for the outbox of every session. |
| ChannelLoops.ChannelLoop.SpawnAll | lib/troposphere-lib/src/channel.rs:189-192 | Exactly one send task for the outbox of every session. |
| ChannelLoops.ChannelLoop.JoinAll | lib/troposphere-lib/src/channel.rs:193-196 | Every task is joined, in any order, each having delivered once; or the first failure ends it. |
| ChannelLoops.ChannelLoop.ConnectPeer | lib/troposphere-lib/src/channel.rs:206-220 | A session's new outbox is inserted in place of an earlier one, and the connection is reported after what is queued. |
| ChannelLoops.ChannelLoop.DeliverMsg | lib/troposphere-lib/src/channel.rs:224-231 | A delivered message is queued for the loop, after what is queued. |
| ChannelLoops.ChannelLoop.TakeNext | bin/troposphere/src/gui/chat.rs:461-482 | A received message is shown after all that is shown; other events show nothing; one event is taken. |
| ChannelLoops.ChannelLoop.ManageChannel | bin/troposphere/src/gui/chat.rs:437-482 | Unless a send fails, every session's outbox has carried, after what it carried before, exactly the messages of the commands taken, in order; own and received messages are shown in exactly the order in which the loop took them; a send error stops the loop. |
| ChannelLoops.StretchOfRun | bin/troposphere/src/gui/chat.rs:437-482 | Where a method leaves a loop that a run has led to, the run goes on to there, and the invariants of runs hold. |
| Gui.AlwaysConserved | bin/troposphere/src/gui/chat.rs:227-291 | Every started session has exactly one open task, pending, failed or successful; every portal opened has exactly one list task, pending, lost or answered. |
| Gui.TaskCounts | bin/troposphere/src/gui/chat.rs:227-291 | Sessions started = open tasks pending + failed + portals opened; portals opened = list tasks pending + lost + answers received. |
| Gui.AlwaysMapsExact | bin/troposphere/src/gui/chat.rs:247-289 | A portal is kept exactly for the sessions opened and not aborted since; a display entry exactly for those and for sessions answered after their abort. |
| Gui.MapsAgree | bin/troposphere/src/gui/chat.rs:247-267 | Every portal has a display entry; a session has an entry without a portal exactly when its portal was opened, it was aborted, and its list was answered, in this order. |
| Gui.ExtraEntryWasInFlight | bin/troposphere/src/gui/chat.rs:261-267 | Such an entry belongs to a session that was aborted while its list task was in flight. |
| Gui.ShownListsAreGenuine | bin/troposphere/src/gui/chat.rs:283-288 | Every channel list shown for a session is the very answer of the last list call answered over that session, by a portal opened on it, and the session had started. |
| Gui.ShownAnswerIsLast | bin/troposphere/src/gui/chat.rs:261-289 | A display entry holds the answer that was given last, or none if its portal was opened since. |
| Gui.KeptPortalIsLast | bin/troposphere/src/gui/chat.rs:251-278 | A session's portal is kept exactly if it was the last opened over the session and the session was not aborted since. |
| Gui.LateAnswerLeavesEntry | bin/troposphere/src/gui/chat.rs:261-267 | A run that leaves an entry without a portal. |
| StalePortals.StaleIff | bin/troposphere/src/gui/chat.rs:247-281 | A kept portal is of an aborted session exactly if the session's abort was handled before its portal opened. |
| StalePortals.StaleForEver | bin/troposphere/src/gui/chat.rs:251-256 | A portal kept for an aborted session, and its display entry, are there in every later state. |
| StalePortals.StaleRun | bin/troposphere/src/gui/chat.rs:273-281 | A run, from the initial state, that keeps the portal of an aborted session. |
| GuiLoops.ManagerLoop.Turn | bin/troposphere/src/gui/chat.rs:227-291 | One turn, whatever `select!` picks, is a step of the loop and keeps the tasks conserved and both maps exact. |
| GuiLoops.ManagerLoop.Run | bin/troposphere/src/gui/chat.rs:227-291 | On any events that can occur one after the other the loop ends where they lead, with an entry without a portal exactly for each session whose list was answered after its abort. |
| GuiLoops.StretchOfRun | bin/troposphere/src/gui/chat.rs:227-291 | Where a method leaves a loop that a run has led to, the run goes on to there, and the invariants of runs hold. |
| GuiLoops.ManagerLoop.Abort | bin/troposphere/src/gui/chat.rs:251-260 | An abort removes the portal, and the display entry only if there was a portal. |
| GuiLoops.ManagerLoop.Open | bin/troposphere/src/gui/chat.rs:275-289 | An opened portal enters both maps, with no list yet, and its list task replaces its open task. |
| GuiLoops.ManagerLoop.Listing | bin/troposphere/src/gui/chat.rs:261-267 | The very answer is put in the session's entry, which is made anew if it is gone, and its list task is done. |
| Netlayers.ShutdownReachesAll | lib/troposphere-lib/src/session.rs:90-98 | In every state after `end`, each netlayer loop still serving and each session loop still running, also one spawned since, has the change unseen and its end branch enabled. |
| Netlayers.AlwaysEndable | lib/troposphere-lib/src/manager/builder.rs:24-40 | No loop that could take its end branch has ever missed the change, and every running session is among its netlayer's tasks. |
| Netlayers.LeftDrained | lib/troposphere-lib/src/netlayer.rs:147-153 | A netlayer that left by its end branch left no session of its own running. |
| Netlayers.LeavesOnlyAtEnd | lib/troposphere-lib/src/netlayer.rs:133-134 | A netlayer leaves by its end branch only after `end`, or after the manager is gone. |
| Netlayers.LostOnlyByFailure | lib/troposphere-lib/src/netlayer.rs:113-114 | Otherwise a netlayer is gone only by a failure to accept, or with the manager. |
| Netlayers.StopsOnlyAtEnd | lib/troposphere-lib/src/session.rs:90-97 | A session's loop ends by its end branch only after `end`; a change that does not raise the flag ends no session. |
| Netlayers.DrainCounts | lib/troposphere-lib/src/netlayer.rs:147-153 | While a netlayer drains, its task count falls by exactly one with each join and by nothing else; when it has left by its end branch it joined as many tasks as it had. |
| Netlayers.EverySessionAnnouncedAndSpawned | lib/troposphere-lib/src/netlayer.rs:111-146 | At the `select!` and after the end branch, accepts + successful connects = starts announced = session loops spawned. |
| Netlayers.RequestsServedInOrder | lib/troposphere-lib/src/netlayer.rs:118-132 | A layer takes its requests in the order they were made; none is answered twice; at its `select!` exactly the requests taken are answered. |
| Requests.AlwaysQueued | lib/troposphere-lib/src/netlayer.rs:70-84 | Every request that was sent is, in every later state, in the queue of the layer it was sent to. |
| Requests.RequestFate | lib/troposphere-lib/src/netlayer.rs:60-84 | A request that was sent stays for ever at one fixed place of the queue of the layer registered for its transport when it was made, and in no other queue; it was taken exactly if that layer has taken past its place, by that layer and no other; only that layer answers it, once it took it. |
| Requests.TakenIff | lib/troposphere-lib/src/netlayer.rs:118-132 | A queued request was taken by a step of the run exactly if its layer has taken past its place. |
| Requests.TakenInOrder | lib/troposphere-lib/src/netlayer.rs:118-132 | When a layer takes a request, it has taken before every earlier request sent to it. |
| NetlayerLoops.NetlayerManager.RegisterLayer | lib/troposphere-lib/src/netlayer.rs:47-68 | A transport's requests go to the newly registered layer. |
| NetlayerLoops.NetlayerManager.Request | lib/troposphere-lib/src/netlayer.rs:70-84 | A request fails exactly when the transport is unregistered or its loop has returned. |
| NetlayerLoops.NetlayerManager.AcceptSession | lib/troposphere-lib/src/netlayer.rs:112-145 | An accepted session is announced, then spawned with a clone of the layer's view of the end flag, and joins the layer's tasks; nothing else changes. |
| NetlayerLoops.NetlayerManager.ServeRequest | lib/troposphere-lib/src/netlayer.rs:118-132 | The oldest request is taken and answered once; a session it gave is announced and spawned, a failure adds none. |
| NetlayerLoops.NetlayerManager.Shutdown | lib/troposphere-lib/src/netlayer.rs:133-153 | The end branch ends and joins every session task of the layer, one by one, and returns with none left; other sessions are untouched. |
| NetlayerLoops.NetlayerManager.ManageNetlayer | lib/troposphere-lib/src/netlayer.rs:97-154 | Up to the input that ends it, the loop announces and spawns every session that it accepts or connects, and takes a request for each word of one, in order, each answered once; it ends exactly at a failure to accept or a changed flag, and then by its end branch with every session of the layer done. |
| NetlayerLoops.NetlayerManager.End | lib/troposphere-lib/src/manager.rs:205-206 | The end flag is raised exactly if some loop can still see it. |
| NetlayerLife.Finish | lib/troposphere-lib/src/netlayer.rs:133-153 | From the `select!` of a built manager's layer to its return: the end is seen, and every session of the layer is done. |
| NetlayerLife.Live | lib/troposphere-lib/src/netlayer.rs:97-154 | From a new manager, by its own methods: a layer is registered, accepts, serves a request, sees the end and leaves with all its sessions done; what happens is a run. |
| NetlayerLoops.StretchOfRun | lib/troposphere-lib/src/netlayer.rs:97-154 | Where a method leaves netlayers that a run has led to, the run goes on to there, and the invariants of runs hold. |
| Reach.SameSessions | lib/troposphere-lib/src/channel.rs:206-214 | In every joint run of the node and a channel's broadcasts, broadcasts have an outbox for exactly the sessions that the node's channel has one for. |
| Reach.NodeRunOf | lib/troposphere-lib/src/manager.rs:142-203 | The node's steps among those of a joint run, in their order, are a run of the node from the same initial state to the same state. |
| Reach.BroadcastReachesAuthorized | lib/troposphere-lib/src/portal.rs:161-185 | Every outbox that a broadcast ever finds belongs to a session with the whole chain, among the node's own steps of this very joint run: a verified signature, a granted portal, a connect on it that names this channel, the outbox installed in it. |
| Reach.DeliversRunJointly | lib/troposphere-lib/src/channel.rs:188-197 | Through each of those outboxes the messages delivered are a contiguous run of the owner's. |
| Sessions.AlwaysAgree | lib/troposphere-lib/src/netlayer.rs:111-146 | In every joint run of the node and its netlayers, their sessions are the same, each in the same phase. |
| Sessions.EndReachesSessions | lib/troposphere-lib/src/session.rs:90-98 | After `end`, every session whose loop runs in the node has the change unseen, and its end branch is enabled and stops it. |
| Sessions.LeftSessionsEnded | lib/troposphere-lib/src/netlayer.rs:147-153 | When a netlayer has left by its end branch, the loops of all its sessions have ended in the node. |
| Mdns.PeerIffUsable | bin/troposphere/src/native/net.rs:99-123 | A service is a peer exactly when it has a private or unique-local address and a property that is a key; the peer has the first such address, that key, the service's port, and the name property or else the host name. |
| Mdns.LocalIff | bin/troposphere/src/native/net.rs:103-106 | The addresses taken are those of 10.0.0.0/8, 172.16.0.0/12, 192.168.0.0/16 and fc00::/7. |
| Mdns.AlwaysConsistent | bin/troposphere/src/native/net.rs:366-380 | After any events every peer is listed under its own key, and no service of the node is in the key map. |
| Mdns.KeyMapIsLast | bin/troposphere/src/native/net.rs:366-387 | A name is live with a key exactly if the last event that resolved or removed it resolved it, as a service of another node, with that key. |
| Mdns.ListedIff | bin/troposphere/src/native/net.rs:366-387 | A key is listed exactly if it was resolved and no live name of it was removed since. |
| Mdns.ListedPeerIsFirst | bin/troposphere/src/native/net.rs:371-377 | A listed peer is the one resolved when its key was last not listed; later events do not change it. |
| Mdns.PeersNamedIff | bin/troposphere/src/native/net.rs:366-387 | Every listed peer has a live name at all times exactly when no event takes a peer's only name. |
| Mdns.NamesListedIff | bin/troposphere/src/native/net.rs:381-387 | Every live name's peer is listed at all times exactly when no event removes one of several names of a key. |
| Mdns.StableNamesNamed | bin/troposphere/src/native/net.rs:366-387 | If no service name changes its key, every listed peer has a live name. |
| Mdns.Bijection | bin/troposphere/src/native/net.rs:366-387 | If also no key has two names, live names and listed peers are in bijection. |
| Mdns.RenamedPeerStays | bin/troposphere/src/native/net.rs:371-377 | Two keys under one name leave the first listed when the name is gone. |
| Mdns.AliasedPeerVanishes | bin/troposphere/src/native/net.rs:381-387 | Of two names of one key, removing one unlists the peer though the other is live. |
| Mdns.MdnsListener.OnEvent | bin/troposphere/src/native/net.rs:362-391 | A turn of the loop changes the two maps as the event function says. |
| Mdns.MdnsListener.Listen | bin/troposphere/src/native/net.rs:332-391 | The service events before the first stop are handled, in order, and none after. |

## Left out

- CapTP, the Syrup derive macros and Ed25519 themselves: they are other projects; see the assumptions.
- Aliasing: what the code shares by `Arc` (a channel in several maps, a portal in several tables) the model names
  by its place in a list of all that were made, so sharing is equality of names rather than of references.
- Interleaving inside a class method: a method is one uninterrupted stretch; interleavings are the runs of the step
  relations, of which its stretch is a part.
- ChatNodes.ChatNode.ManageSession: models the loop on a list of its inputs and lets another task go on by one stretch
  before each; finer interleavings are runs of the step relation.
- ChatNodes.ChatNode.ListChannels: models one uninterrupted iteration; one during which channels are registered is made
  of the steps `VisitEntry` and `AnswerList`.
- Dropping the manager, or its queue being closed: the queue is unbounded and open throughout.
- The session tables after a session has ended: they stay as they are, and calls on them remain possible.
- Liveness, fairness and time: all properties are safety, enabledness or conservation.
- A send error in `manage_channel`, and what follows a failed `Message::new`, are unfinished in the code; the model
  stops the loop at the first and has no step for the second.
- `introduce_peer` after its connect, and `MdnsPeer::merge`, are unfinished; the model shows nothing for the first
  and keeps the old entry for the second, as the code does.
- `PeerConnected` and `ConnectChannel` have no branch in the loops that receive them; the first changes nothing in
  the model, the second is never sent.
- `Message::new_signed`: it draws the id after the signature was made, so nothing can be said of its verification.
- What `RemotePortal::connect` does with the answer it gets; the export of its own channel is modelled.
- The profile, avatar and subscriptions of the builder, and the waiting of `end` for subscriptions: no property of
  theirs is hard.
- Rendering, styles, configuration, key files, the command line, TCP binding, the mDNS daemon and its shutdown:
  input and output.
