/** One process of the chat node as a step relation: netlayer and session loops, the tasks that answer
    fetches, the gateway and portal calls of remote peers, and the manager's `recv_event`, all
    interleaving over the shared queue and maps.

    CapTP is abstracted by four assumptions:
    - every session has a fresh key and an append-only table from positions to exported objects;
    - a session can call an object only at a position where that object was exported to it;
    - an object's `exported` hook runs before the export call returns;
    - a resolver that is not settled when its holder goes away is dropped. */
module Node {
  import opened Foundation
  import opened Paths

  /** `b"gateway"` */
  const GATEWAY_SWISS: Bytes := [103, 97, 116, 101, 119, 97, 121]

  // ----- objects and sessions

  /** What an export table position can denote. Portals and channels are named by their place in the
      lists of all portals and all channels ever made, so that two of them can be told apart. */
  datatype Object =
    | Bootstrap
    | FulfillResponseHandler
    | Gateway
    | PortalRef(portal: nat)
    | ChannelRef(channel: nat)

  /** A session's netlayer has it in hand, has announced it, has spawned its loop; the loop has left. */
  datatype Phase = Produced | Announced | Running | Ended

  /** The export tables of all sessions. */
  type Tables = map<Key, seq<Object>>

  function Export(exports: Tables, session: Key, target: Object): Tables {
    if session in exports then exports[session := exports[session] + [target]] else exports
  }

  /** `target` is what `session` calls at `pos`. */
  predicate Denotes(exports: Tables, session: Key, pos: nat, target: Object) {
    session in exports && pos < |exports[session]| && exports[session][pos] == target
  }

  datatype Portal = Portal(remoteKey: Key)

  // ----- channels

  datatype ChannelInfo = ChannelInfo(name: string, description: string)

  datatype Outbox = Outbox(base: nat, peerKey: Key)

  datatype Channel = Channel(
    id: Uuid,
    info: ChannelInfo,
    exportedAt: map<Key, nat>,
    outboxes: map<Key, Outbox>,
    connected: seq<Key>)

  function NewChannel(id: Uuid, info: ChannelInfo): Channel {
    Channel(id, info, map[], map[], [])
  }

  /** `Channel::exported`: the hook that remembers where the channel was exported. */
  function Exported(channel: Channel, session: Key, pos: nat): Channel {
    channel.(exportedAt := channel.exportedAt[session := pos])
  }

  /** `Channel::connect_peer`: the outbox of a session, replacing an earlier one, and a
      `PeerConnected` event. */
  function ConnectPeer(channel: Channel, session: Key, outbox: Outbox): Channel {
    channel.(outboxes := channel.outboxes[session := outbox], connected := channel.connected + [outbox.peerKey])
  }

  /** The `exported` hook of any object: only channels have one that changes something. */
  function Hooked(channels: seq<Channel>, target: Object, session: Key, pos: nat): seq<Channel> {
    if target.ChannelRef? && target.channel < |channels|
    then channels[target.channel := Exported(channels[target.channel], session, pos)]
    else channels
  }

  // ----- events

  datatype ChatEvent =
    | SessionStartedEvent(session: Key)
    | SessionAbortedEvent(session: Key, reason: string)

  datatype ChatResult = Event(event: ChatEvent) | Failure(error: string)

  /** What tasks send to the manager. A `Fetch` carries the one-shot sender of its fetch task, a
      `PortalRequest` the resolver of its `authenticate` call. */
  datatype NetworkEvent =
    | PortalRequest(session: Key, peerKey: Key, auth: nat)
    | SessionStarted(session: Key)
    | Fetch(session: Key, swiss: Bytes, fetch: nat)
    | SessionAborted(session: Key, reason: string)
    | TaskFinished(result: ChatResult)

  // ----- tasks

  datatype Promise = FetchPromise(fetch: nat) | AuthPromise(auth: nat)

  datatype Outcome = Fulfilled(pos: nat) | Broken

  datatype Settlement = Settlement(promise: Promise, outcome: Outcome)

  /** How promises were settled, in order, and which resolvers were dropped unsettled. */
  datatype Log = Log(settled: seq<Settlement>, dropped: seq<Promise>)

  datatype FetchStage =
    | Asking
    | Waiting
    | Answered(answer: Option<Object>)
    | Hooking(target: Object, hookPos: nat)
    | Caching(cachePos: nat)
    | Fulfilling(fulfillPos: nat)
    | FetchDone

  /** A `respond_to_fetch` task; it holds its fetch resolver until it is done. */
  datatype FetchTask = FetchTask(session: Key, swiss: Bytes, stage: FetchStage)

  datatype AuthStage = Checking | Rejected | Requested

  /** A `Gateway::authenticate` call; it holds its resolver while checking. */
  datatype AuthCall = AuthCall(session: Key, peerKey: Key, message: Bytes, signature: Signature, stage: AuthStage)

  datatype ConnectStage =
    | Finding
    | Looking(channel: nat)
    | Exporting(channel: nat)
    | HookingChannel(channel: nat, pos: nat)
    | Installing(channel: nat, pos: nat)
    | Unrecognized
    | Connected(channel: nat, pos: nat)

  /** A call of `Portal::connect` by a session, or the export that `RemotePortal::connect` makes of its
      own new channel. */
  datatype ConnectKind = Incoming(portal: nat, outbox: nat) | Outgoing

  datatype ConnectTask = ConnectTask(session: Key, kind: ConnectKind, id: Uuid, stage: ConnectStage)

  /** `Channel::listing` */
  datatype Listing = Listing(id: Uuid, info: ChannelInfo)

  /** A call of `Portal::list_channels`, which iterates over the channel map: the ids registered when it began, the
      map's keys visited and the channels listed so far, and its answer. */
  datatype ListCall = ListCall(
    session: Key,
    before: set<Uuid>,
    visited: set<Uuid>,
    listing: seq<Listing>,
    answer: Option<seq<Listing>>)

  /** The portal request that `recv_event` is fulfilling. */
  datatype Grant = Grant(auth: nat, pos: nat)

  /** `sent` is everything ever put on the manager's queue, of which the first `received` were taken.
      `returned` is what `recv_event` returned so far. */
  datatype State = State(
    phases: map<Key, Phase>,
    exports: Tables,
    registries: map<Key, map<Bytes, nat>>,
    sent: seq<NetworkEvent>,
    received: nat,
    hand: Option<Grant>,
    live: set<Key>,
    portals: map<Key, nat>,
    allPortals: seq<Portal>,
    channels: map<Uuid, nat>,
    dataChannels: map<Uuid, nat>,
    allChannels: seq<Channel>,
    returned: seq<ChatResult>,
    fetches: seq<FetchTask>,
    auths: seq<AuthCall>,
    connects: seq<ConnectTask>,
    lists: seq<ListCall>,
    log: Log,
    ledger: set<Signed>)

  /** The builder's result. `dataChannels`, which only fetches read, is filled by no code of the
      repository; the model leaves it open and fixed. */
  ghost predicate Init(s: State) {
    && s.phases == map[] && s.exports == map[] && s.registries == map[]
    && s.sent == [] && s.received == 0 && s.hand == None
    && s.live == {} && s.portals == map[] && s.allPortals == [] && s.channels == map[]
    && s.returned == [] && s.fetches == [] && s.auths == [] && s.connects == [] && s.lists == []
    && s.log == Log([], [])
    && (forall c :: 0 <= c < |s.allChannels| ==>
          s.allChannels[c] == NewChannel(s.allChannels[c].id, s.allChannels[c].info))
    && (forall id :: id in s.dataChannels ==> s.dataChannels[id] < |s.allChannels|)
  }

  /** What the manager answers to a fetch. */
  function Resolve(dataChannels: map<Uuid, nat>, swiss: Bytes): Option<Object> {
    if swiss == GATEWAY_SWISS then Some(Gateway)
    else
      match UuidFromSlice(swiss)
      case Some(id) => if id in dataChannels then Some(ChannelRef(dataChannels[id])) else None
      case None => None
  }

  // ----- steps

  datatype Step =
    // netlayer loops
    | NetProduce(session: Key)
    | NetAnnounce(session: Key)
    | NetSpawn(session: Key)
    // session loops
    | RecvFetch(session: Key, swiss: Bytes)
    | RecvAbort(session: Key, reason: string)
    | LoopEnd(session: Key)
    // respond_to_fetch tasks
    | FetchHit(fetch: nat)
    | FetchMiss(fetch: nat)
    | FetchExport(fetch: nat)
    | FetchHook(fetch: nat)
    | FetchCache(fetch: nat)
    | FetchFulfill(fetch: nat, ok: bool)
    | FetchBreak(fetch: nat, ok: bool)
    | FetchAbort(fetch: nat)
    // Gateway::authenticate
    | CallAuthenticate(session: Key, at: nat, peerKey: Key, message: Bytes, signature: Signature)
    | AuthReject(auth: nat, ok: bool)
    | AuthRequest(auth: nat)
    // the manager
    | RecvTaskFinished
    | RecvStarted
    | RecvAborted
    | RecvFetchRequest
    | RecvPortalRequest
    | MgrFulfill(ok: bool)
    | MgrCancel
    | SubtaskFinished(result: ChatResult)
    // channels, Portal::connect, Portal::list_channels, RemotePortal::connect
    | CreateChannel(id: Uuid, info: ChannelInfo)
    | RegisterChannel(channel: nat)
    | CallConnect(session: Key, at: nat, id: Uuid, outbox: nat)
    | ConnectFind(connect: nat)
    | ConnectLook(connect: nat)
    | ConnectExport(connect: nat)
    | ConnectHook(connect: nat)
    | ConnectInstall(connect: nat)
    | CallList(session: Key, at: nat)
    | VisitEntry(list: nat, id: Uuid)
    | AnswerList(list: nat)
    | RemoteConnect(session: Key, id: Uuid, info: ChannelInfo)
    // somebody signs something
    | Sign(entry: Signed)

  function FetchTo(fetches: seq<FetchTask>, f: nat, stage: FetchStage): seq<FetchTask>
    requires f < |fetches|
  {
    fetches[f := fetches[f].(stage := stage)]
  }

  function AuthTo(auths: seq<AuthCall>, a: nat, stage: AuthStage): seq<AuthCall>
    requires a < |auths|
  {
    auths[a := auths[a].(stage := stage)]
  }

  function ConnectTo(connects: seq<ConnectTask>, n: nat, stage: ConnectStage): seq<ConnectTask>
    requires n < |connects|
  {
    connects[n := connects[n].(stage := stage)]
  }

  /** `resolver.fulfill(..).await` or `resolver.break_promise(..).await`: settles the promise, or fails
      and takes the resolver with it. */
  function Settle(log: Log, promise: Promise, outcome: Outcome, ok: bool): Log {
    if ok then log.(settled := log.settled + [Settlement(promise, outcome)]) else Drop(log, promise)
  }

  function Drop(log: Log, promise: Promise): Log {
    log.(dropped := log.dropped + [promise])
  }

  /** `recv_event` is at its queue, not fulfilling a portal request, and the queue is not empty. */
  predicate CanReceive(s: State) {
    s.hand == None && s.received < |s.sent|
  }

  /** The manager's answer goes through the fetch task's one-shot channel, unless the task is gone. */
  function Answer(fetches: seq<FetchTask>, f: nat, answer: Option<Object>): seq<FetchTask> {
    if f < |fetches| && fetches[f].stage == Waiting
    then fetches[f := fetches[f].(stage := Answered(answer))]
    else fetches
  }

  /** `portals.entry(peer).or_insert_with(..)`, where `next` names the portal that may be made. */
  function PortalsWith(portals: map<Key, nat>, next: nat, peer: Key): (r: map<Key, nat>)
    ensures peer in r
  {
    if peer in portals then portals else portals[peer := next]
  }

  function Cached(registry: map<Bytes, nat>, swiss: Bytes, pos: nat): map<Bytes, nat> {
    registry[swiss := pos]
  }

  predicate FetchAt(s: State, f: nat) {
    f < |s.fetches| && s.fetches[f].session in s.exports && s.fetches[f].session in s.registries
  }

  predicate ConnectAt(s: State, n: nat) {
    n < |s.connects| && s.connects[n].session in s.exports
  }

  /** The netlayer loops. */
  ghost predicate NetNext(s: State, step: Step, s': State) {
    match step
    case NetProduce(k) =>
      && k !in s.exports
      && s' == s.(phases := s.phases[k := Produced], exports := s.exports[k := [Bootstrap]],
                  registries := s.registries[k := map[]])
    case NetAnnounce(k) =>
      && k in s.phases && s.phases[k] == Produced
      && s' == s.(phases := s.phases[k := Announced], sent := s.sent + [SessionStarted(k)])
    case NetSpawn(k) =>
      && k in s.phases && s.phases[k] == Announced
      && s' == s.(phases := s.phases[k := Running], exports := Export(s.exports, k, FulfillResponseHandler))
    case _ => false
  }

  /** The `manage_session` loop. */
  ghost predicate SessionNext(s: State, step: Step, s': State) {
    match step
    case RecvFetch(k, swiss) =>
      && k in s.phases && s.phases[k] == Running
      && s' == s.(fetches := s.fetches + [FetchTask(k, swiss, Asking)])
    case RecvAbort(k, reason) =>
      && k in s.phases && s.phases[k] == Running
      && s' == s.(phases := s.phases[k := Ended], sent := s.sent + [SessionAborted(k, reason)])
    case LoopEnd(k) =>
      && k in s.phases && s.phases[k] == Running
      && s' == s.(phases := s.phases[k := Ended])
    case _ => false
  }

  /** The `respond_to_fetch` tasks. */
  ghost predicate FetchNext(s: State, step: Step, s': State) {
    match step
    case FetchHit(f) =>
      && FetchAt(s, f) && var t := s.fetches[f];
      && t.stage == Asking && t.swiss in s.registries[t.session]
      && s' == s.(fetches := FetchTo(s.fetches, f, Fulfilling(s.registries[t.session][t.swiss])))
    case FetchMiss(f) =>
      && FetchAt(s, f) && var t := s.fetches[f];
      && t.stage == Asking && t.swiss !in s.registries[t.session]
      && s' == s.(fetches := FetchTo(s.fetches, f, Waiting), sent := s.sent + [Fetch(t.session, t.swiss, f)])
    case FetchExport(f) =>
      && FetchAt(s, f) && var t := s.fetches[f];
      && t.stage.Answered? && t.stage.answer.Some? && var target := t.stage.answer.value;
      && s' == s.(fetches := FetchTo(s.fetches, f, Hooking(target, |s.exports[t.session]|)),
                  exports := Export(s.exports, t.session, target))
    case FetchHook(f) =>
      && FetchAt(s, f) && var t := s.fetches[f];
      && t.stage.Hooking?
      && s' == s.(fetches := FetchTo(s.fetches, f, Caching(t.stage.hookPos)),
                  allChannels := Hooked(s.allChannels, t.stage.target, t.session, t.stage.hookPos))
    case FetchCache(f) =>
      && FetchAt(s, f) && var t := s.fetches[f];
      && t.stage.Caching? && var registry := s.registries[t.session];
      && s' == s.(fetches := FetchTo(s.fetches, f, Fulfilling(t.stage.cachePos)),
                  registries := s.registries[t.session := Cached(registry, t.swiss, t.stage.cachePos)])
    case FetchFulfill(f, ok) =>
      && FetchAt(s, f) && s.fetches[f].stage.Fulfilling?
      && s' == s.(fetches := FetchTo(s.fetches, f, FetchDone),
                  log := Settle(s.log, FetchPromise(f), Fulfilled(s.fetches[f].stage.fulfillPos), ok))
    case FetchBreak(f, ok) =>
      && FetchAt(s, f) && s.fetches[f].stage == Answered(None)
      && s' == s.(fetches := FetchTo(s.fetches, f, FetchDone), log := Settle(s.log, FetchPromise(f), Broken, ok))
    case FetchAbort(f) =>
      && FetchAt(s, f) && s.fetches[f].stage != FetchDone
      && s.fetches[f].session in s.phases && s.phases[s.fetches[f].session] == Ended
      && s' == s.(fetches := FetchTo(s.fetches, f, FetchDone), log := Drop(s.log, FetchPromise(f)))
    case _ => false
  }

  /** `Gateway::authenticate`, and signatures made anywhere. */
  ghost predicate GatewayNext(s: State, step: Step, s': State) {
    match step
    case CallAuthenticate(k, at, peer, message, signature) =>
      && Denotes(s.exports, k, at, Gateway)
      && s' == s.(auths := s.auths + [AuthCall(k, peer, message, signature, Checking)])
    case AuthReject(a, ok) =>
      && a < |s.auths| && var c := s.auths[a];
      && c.stage == Checking && !VerifyStrict(s.ledger, c.peerKey, c.message, c.signature)
      && s' == s.(auths := AuthTo(s.auths, a, Rejected), log := Settle(s.log, AuthPromise(a), Broken, ok))
    case AuthRequest(a) =>
      && a < |s.auths| && var c := s.auths[a];
      && c.stage == Checking && VerifyStrict(s.ledger, c.peerKey, c.message, c.signature)
      && s' == s.(auths := AuthTo(s.auths, a, Requested),
                  sent := s.sent + [PortalRequest(c.session, c.peerKey, a)])
    case Sign(entry) => s' == s.(ledger := s.ledger + {entry})
    case _ => false
  }

  /** `ChatManager::recv_event`. */
  ghost predicate ManagerNext(s: State, step: Step, s': State) {
    match step
    case RecvTaskFinished =>
      && CanReceive(s) && var event := s.sent[s.received];
      && event.TaskFinished?
      && s' == s.(received := s.received + 1, returned := s.returned + [event.result])
    case RecvStarted =>
      && CanReceive(s) && var event := s.sent[s.received];
      && event.SessionStarted?
      && s' == s.(received := s.received + 1, live := s.live + {event.session},
                  returned := s.returned + [Event(SessionStartedEvent(event.session))])
    case RecvAborted =>
      && CanReceive(s) && var event := s.sent[s.received];
      && event.SessionAborted?
      && s' == s.(received := s.received + 1, live := s.live - {event.session},
                  returned := s.returned + [Event(SessionAbortedEvent(event.session, event.reason))])
    case RecvFetchRequest =>
      && CanReceive(s) && var event := s.sent[s.received];
      && event.Fetch?
      && s' == s.(received := s.received + 1,
                  fetches := Answer(s.fetches, event.fetch, Resolve(s.dataChannels, event.swiss)))
    case RecvPortalRequest =>
      && CanReceive(s) && var event := s.sent[s.received];
      && event.PortalRequest? && event.session in s.exports
      && var portals := PortalsWith(s.portals, |s.allPortals|, event.peerKey);
      && s' == s.(received := s.received + 1, portals := portals,
                  allPortals := if event.peerKey in s.portals then s.allPortals
                                else s.allPortals + [Portal(event.peerKey)],
                  exports := Export(s.exports, event.session, PortalRef(portals[event.peerKey])),
                  hand := Some(Grant(event.auth, |s.exports[event.session]|)))
    case MgrFulfill(ok) =>
      && s.hand.Some?
      && s' == s.(hand := None,
                  log := Settle(s.log, AuthPromise(s.hand.value.auth), Fulfilled(s.hand.value.pos), ok))
    case MgrCancel =>
      // recv_event is dropped at an await point: only a portal request in hand is lost with it
      s' == s.(hand := None, log := if s.hand.Some? then Drop(s.log, AuthPromise(s.hand.value.auth)) else s.log)
    case SubtaskFinished(result) => s' == s.(sent := s.sent + [TaskFinished(result)])
    case _ => false
  }

  /** Channels made and registered, and `Portal::list_channels`. */
  ghost predicate ChannelNext(s: State, step: Step, s': State) {
    match step
    case CreateChannel(id, info) => s' == s.(allChannels := s.allChannels + [NewChannel(id, info)])
    case RegisterChannel(c) =>
      c < |s.allChannels| && s' == s.(channels := s.channels[s.allChannels[c].id := c])
    case CallList(k, at) =>
      && k in s.exports && at < |s.exports[k]| && s.exports[k][at].PortalRef?
      && s' == s.(lists := s.lists + [ListCall(k, s.channels.Keys, {}, [], None)])
    case VisitEntry(l, id) =>
      && l < |s.lists| && var list := s.lists[l];
      && list.answer == None && id in s.channels && id !in list.visited && s.channels[id] < |s.allChannels|
      && var channel := s.allChannels[s.channels[id]];
      && s' == s.(lists := s.lists[l := list.(visited := list.visited + {id},
                                              listing := list.listing + [Listing(channel.id, channel.info)])])
    case AnswerList(l) =>
      && l < |s.lists| && s.lists[l].answer == None && s.lists[l].before <= s.lists[l].visited
      && s' == s.(lists := s.lists[l := s.lists[l].(answer := Some(s.lists[l].listing))])
    case _ => false
  }

  /** `Portal::connect`, and the export made by `RemotePortal::connect`. */
  ghost predicate PortalNext(s: State, step: Step, s': State) {
    match step
    case CallConnect(k, at, id, outbox) =>
      && k in s.exports && at < |s.exports[k]| && var target := s.exports[k][at];
      && target.PortalRef?
      && s' == s.(connects := s.connects + [ConnectTask(k, Incoming(target.portal, outbox), id, Finding)])
    case ConnectFind(n) =>
      && ConnectAt(s, n) && s.connects[n].stage == Finding && var id := s.connects[n].id;
      && s' == s.(connects := ConnectTo(s.connects, n,
                              if id in s.channels then Looking(s.channels[id]) else Unrecognized))
    case ConnectLook(n) =>
      && ConnectAt(s, n) && var t := s.connects[n];
      && t.stage.Looking? && var c := t.stage.channel;
      && c < |s.allChannels|
      && var exportedAt := s.allChannels[c].exportedAt;
      && s' == s.(connects := ConnectTo(s.connects, n,
                              if t.session in exportedAt then Installing(c, exportedAt[t.session]) else Exporting(c)))
    case ConnectExport(n) =>
      && ConnectAt(s, n) && var t := s.connects[n];
      && t.stage.Exporting? && var c := t.stage.channel;
      && s' == s.(connects := ConnectTo(s.connects, n, HookingChannel(c, |s.exports[t.session]|)),
                  exports := Export(s.exports, t.session, ChannelRef(c)))
    case ConnectHook(n) =>
      && ConnectAt(s, n) && var t := s.connects[n];
      && t.stage.HookingChannel? && var (c, pos) := (t.stage.channel, t.stage.pos);
      && s' == s.(connects := ConnectTo(s.connects, n,
                              if t.kind.Incoming? then Installing(c, pos) else Connected(c, pos)),
                  allChannels := Hooked(s.allChannels, ChannelRef(c), t.session, pos))
    case ConnectInstall(n) =>
      && ConnectAt(s, n) && var t := s.connects[n];
      && t.stage.Installing? && t.kind.Incoming? && var (c, pos) := (t.stage.channel, t.stage.pos);
      && c < |s.allChannels| && t.kind.portal < |s.allPortals|
      && var outbox := Outbox(t.kind.outbox, s.allPortals[t.kind.portal].remoteKey);
      && s' == s.(connects := ConnectTo(s.connects, n, Connected(c, pos)),
                  allChannels := s.allChannels[c := ConnectPeer(s.allChannels[c], t.session, outbox)])
    case RemoteConnect(k, id, info) =>
      && k in s.exports
      && s' == s.(allChannels := s.allChannels + [NewChannel(id, info)],
                  connects := s.connects + [ConnectTask(k, Outgoing, id, Exporting(|s.allChannels|))])
    case _ => false
  }

  ghost predicate Next(s: State, step: Step, s': State) {
    || NetNext(s, step, s')
    || SessionNext(s, step, s')
    || FetchNext(s, step, s')
    || GatewayNext(s, step, s')
    || ManagerNext(s, step, s')
    || ChannelNext(s, step, s')
    || PortalNext(s, step, s')
  }

  // ----- runs

  datatype Run = Run(states: seq<State>, steps: seq<Step>)

  /** Any finite interleaving. */
  ghost predicate IsRun(run: Run) {
    && |run.states| == |run.steps| + 1
    && Init(run.states[0])
    && forall i :: 0 <= i < |run.steps| ==> Next(run.states[i], run.steps[i], run.states[i + 1])
  }

  /** The steps lead from `a` to `b`. */
  ghost predicate Path(a: State, steps: seq<Step>, b: State) {
    Leads(Next, a, steps, b)
  }

  lemma PathPlus(a: State, steps: seq<Step>, b: State, step: Step, c: State)
    requires Path(a, steps, b) && Next(b, step, c)
    ensures Path(a, steps + [step], c)
  {
    hide Next;
    LeadsPlus(Next, a, steps, b, step, c);
  }

  lemma PathConcat(a: State, xs: seq<Step>, b: State, ys: seq<Step>, c: State)
    requires Path(a, xs, b) && Path(b, ys, c)
    ensures Path(a, xs + ys, c)
  {
    hide Next;
    LeadsConcat(Next, a, xs, b, ys, c);
  }

  /** A path from the last state of a run continues the run. */
  lemma PathExtendsRun(run: Run, steps: seq<Step>, b: State) returns (longer: Run)
    requires IsRun(run) && Path(Last(run.states), steps, b)
    ensures IsRun(longer) && longer.steps == run.steps + steps && run.states <= longer.states
            && Last(longer.states) == b
  {
    hide Next, Init;
    var states := Continues(Next, run.states, run.steps, steps, b);
    longer := Run(states, run.steps + steps);
  }
}
