/** The node as one object whose fields are the code's maps, queues and task sets, updated in place by the
    code's own functions. Each method is a stretch of code of one task: its contract says which steps of the
    node it takes, so everything proved of runs holds of it, and what it leaves behind. */
module ChatNodes {
  import opened Foundation
  import opened Paths
  import opened Node
  import opened Growth
  import opened Lifecycle
  import opened Channels
  import Fetching
  import Promises

  /** What the `select!` of a session's loop can get: a fetch or an abort of the peer, a failure to receive, or a
      change of the end flag. */
  datatype SessionInput = Fetches(swiss: Bytes) | Aborts(reason: string) | Fails | EndFlag(raised: bool)

  predicate Breaks(input: SessionInput) {
    !input.Fetches? && input != EndFlag(false)
  }

  function TasksFor(k: Key, inputs: seq<SessionInput>): seq<FetchTask> {
    if inputs == [] then []
    else
      var (before, last) := (TasksFor(k, Front(inputs)), Last(inputs));
      if last.Fetches? then before + [FetchTask(k, last.swiss, Asking)] else before
  }

  function Reported(k: Key, input: SessionInput): seq<NetworkEvent> {
    if input.Aborts? then [SessionAborted(k, input.reason)] else []
  }

  /** All tasks of `k` are done and all others untouched. */
  ghost predicate Drained(before: seq<FetchTask>, k: Key, after: seq<FetchTask>) {
    && |after| == |before|
    && forall f :: 0 <= f < |after| ==>
         after[f] == if before[f].session == k then before[f].(stage := FetchDone) else before[f]
  }

  /** No event from the `i`th to before the `j`th is one that `recv_event` returns. */
  ghost predicate AllServed(sent: seq<NetworkEvent>, i: nat, j: nat) {
    i <= j <= |sent| && forall n :: i <= n < j ==> ReturnOf(sent[n]) == []
  }

  /** The tasks of the inputs before the `taken`th follow the earlier ones, in order; all may have gone on. */
  ghost predicate SpawnedUpTo(before: seq<FetchTask>, k: Key, inputs: seq<SessionInput>, taken: nat,
                              after: seq<FetchTask>)
    requires taken <= |inputs|
  {
    var tasks := TasksFor(k, inputs[..taken]);
    |after| == |before| + |tasks| && FetchesGrow(before + tasks, after)
  }

  /** What `recv_event` does, when it is not dropped: it takes events, grants portals and fulfils its grants. */
  predicate IsTurn(step: Step) {
    step.RecvFetchRequest? || step.RecvPortalRequest? || step.MgrFulfill? || step.RecvStarted? || step.RecvAborted?
    || step.RecvTaskFinished?
  }

  ghost predicate AllTurns(steps: seq<Step>) {
    forall i :: 0 <= i < |steps| ==> IsTurn(steps[i])
  }

  class ChatNode {
    var phases: map<Key, Phase>
    var exports: Tables
    var registries: map<Key, map<Bytes, nat>>
    var sent: seq<NetworkEvent>
    var received: nat
    var hand: Option<Grant>
    var live: set<Key>
    var portals: map<Key, nat>
    var allPortals: seq<Portal>
    var channels: map<Uuid, nat>
    const dataChannels: map<Uuid, nat>
    var allChannels: seq<Channel>
    var returned: seq<ChatResult>
    var fetches: seq<FetchTask>
    var auths: seq<AuthCall>
    var connects: seq<ConnectTask>
    var lists: seq<ListCall>
    var log: Log
    var ledger: set<Signed>

    ghost function View(): State
      reads this
    {
      State(phases, exports, registries, sent, received, hand, live, portals, allPortals, channels, dataChannels,
            allChannels, returned, fetches, auths, connects, lists, log, ledger)
    }

    /** The builder's result: everything is empty. */
    constructor ()
      ensures Init(View()) && dataChannels == map[] && allChannels == []
    {
      phases, exports, registries := map[], map[], map[];
      sent, received, hand, live := [], 0, None, {};
      portals, allPortals, channels, dataChannels, allChannels := map[], [], map[], map[], [];
      returned, fetches, auths, connects, lists := [], [], [], [], [];
      log, ledger := Log([], []), {};
    }

    // ----- what comes from outside

    /** A netlayer accepts or connects a session. */
    method ProduceSession(k: Key)
      requires k !in exports
      modifies this`phases, this`exports, this`registries
      ensures Next(old(View()), NetProduce(k), View())
      ensures phases == old(phases)[k := Produced] && exports == old(exports)[k := [Bootstrap]]
      ensures registries == old(registries)[k := map[]]
    {
      hide Next;
      phases, exports, registries := phases[k := Produced], exports[k := [Bootstrap]], registries[k := map[]];
      assert NetNext(old(View()), NetProduce(k), View());
      IsNext(old(View()), NetProduce(k), View());
    }

    /** It tells the manager. */
    method AnnounceSession(k: Key)
      requires k in phases && phases[k] == Produced
      modifies this`phases, this`sent
      ensures Next(old(View()), NetAnnounce(k), View())
      ensures phases == old(phases)[k := Announced] && sent == old(sent) + [SessionStarted(k)]
    {
      hide Next;
      phases, sent := phases[k := Announced], sent + [SessionStarted(k)];
      assert NetNext(old(View()), NetAnnounce(k), View());
      IsNext(old(View()), NetAnnounce(k), View());
    }

    /** It spawns the session's loop, which exports its handler. */
    method SpawnSession(k: Key)
      requires k in phases && phases[k] == Announced
      modifies this`phases, this`exports
      ensures Next(old(View()), NetSpawn(k), View())
      ensures phases == old(phases)[k := Running] && exports == Export(old(exports), k, FulfillResponseHandler)
    {
      hide Next;
      phases, exports := phases[k := Running], Export(exports, k, FulfillResponseHandler);
      assert NetNext(old(View()), NetSpawn(k), View());
      IsNext(old(View()), NetSpawn(k), View());
    }

    /** Somebody signs something. */
    method Sign(entry: Signed)
      modifies this`ledger
      ensures Next(old(View()), Step.Sign(entry), View()) && ledger == old(ledger) + {entry}
    {
      hide Next;
      ghost var before := View();
      ghost var after := before.(ledger := before.ledger + {entry});
      SignStep(before, entry, after);
      var more := ledger + {entry};
      ledger := more;
    }

    /** A session calls `authenticate` on the gateway. */
    method CallAuthenticate(k: Key, at: nat, entry: Signed) returns (a: nat)
      requires Denotes(exports, k, at, Gateway)
      modifies this`auths
      ensures Next(old(View()), Step.CallAuthenticate(k, at, entry.key, entry.message, entry.signature), View())
      ensures a == |old(auths)|
      ensures auths == old(auths) + [AuthCall(k, entry.key, entry.message, entry.signature, Checking)]
    {
      hide Next;
      a := |auths|;
      auths := auths + [AuthCall(k, entry.key, entry.message, entry.signature, Checking)];
      assert GatewayNext(old(View()), Step.CallAuthenticate(k, at, entry.key, entry.message, entry.signature), View());
      IsNext(old(View()), Step.CallAuthenticate(k, at, entry.key, entry.message, entry.signature), View());
    }

    /** A session calls `connect` on a portal. */
    method CallConnect(k: Key, at: nat, id: Uuid, outbox: nat) returns (n: nat)
      requires k in exports && at < |exports[k]| && exports[k][at].PortalRef?
      modifies this`connects
      ensures Next(old(View()), Step.CallConnect(k, at, id, outbox), View()) && n == |old(connects)|
      ensures connects == old(connects) + [ConnectTask(k, Incoming(exports[k][at].portal, outbox), id, Finding)]
    {
      hide Next;
      n := |connects|;
      connects := connects + [ConnectTask(k, Incoming(exports[k][at].portal, outbox), id, Finding)];
      assert PortalNext(old(View()), Step.CallConnect(k, at, id, outbox), View());
      IsNext(old(View()), Step.CallConnect(k, at, id, outbox), View());
    }

    /** `RemotePortal::connect`: a new channel is exported to the peer's session. */
    method RemoteConnect(k: Key, id: Uuid, info: ChannelInfo) returns (c: nat, position: nat, ghost steps: seq<Step>)
      requires k in exports
      modifies this`connects, this`exports, this`allChannels
      ensures Path(old(View()), steps, View()) && c == |old(allChannels)| && position == |old(exports)[k]|
      ensures exports == old(exports)[k := old(exports)[k] + [ChannelRef(c)]]
      ensures allChannels == old(allChannels) + [Channel(id, info, map[k := position], map[], [])]
    {
      hide Next;
      ghost var before := View();
      c, position := |allChannels|, |exports[k]|;
      steps := OwnConnectPath(before, k, id, info);
      connects := connects + [ConnectTask(k, Outgoing, id, Connected(c, position))];
      exports := Export(exports, k, ChannelRef(c));
      allChannels := allChannels + [Exported(NewChannel(id, info), k, position)];
    }

    // ----- the manager

    /** `Channel::new` */
    method CreateChannel(id: Uuid, info: ChannelInfo) returns (c: nat)
      modifies this`allChannels
      ensures Next(old(View()), Step.CreateChannel(id, info), View())
      ensures c == |old(allChannels)| && allChannels == old(allChannels) + [Channel(id, info, map[], map[], [])]
    {
      hide Next;
      c := |allChannels|;
      allChannels := allChannels + [NewChannel(id, info)];
      assert ChannelNext(old(View()), Step.CreateChannel(id, info), View());
      IsNext(old(View()), Step.CreateChannel(id, info), View());
    }

    /** `ChatManager::register_channel`: the channel it replaces, if any, is given back. */
    method RegisterChannel(c: nat) returns (replaced: Option<nat>)
      requires c < |allChannels|
      modifies this`channels
      ensures Next(old(View()), Step.RegisterChannel(c), View())
      ensures channels == old(channels)[allChannels[c].id := c]
      ensures replaced == if allChannels[c].id in old(channels) then Some(old(channels)[allChannels[c].id]) else None
    {
      hide Next;
      var id := allChannels[c].id;
      replaced := if id in channels then Some(channels[id]) else None;
      channels := channels[id := c];
      assert ChannelNext(old(View()), Step.RegisterChannel(c), View());
      IsNext(old(View()), Step.RegisterChannel(c), View());
    }

    /** One turn of the loop in `recv_event` on a fetch request. */
    method AnswerFetch()
      requires hand == None && received < |sent| && sent[received].Fetch?
      modifies this`received, this`fetches
      ensures Next(old(View()), RecvFetchRequest, View()) && received == old(received) + 1
      ensures |fetches| == |old(fetches)|
      ensures var event := sent[old(received)];
              fetches == Answer(old(fetches), event.fetch, Resolve(dataChannels, event.swiss))
      ensures var (f, swiss) := (sent[old(received)].fetch, sent[old(received)].swiss);
              fetches == if f < |old(fetches)| && old(fetches)[f].stage == Waiting
                         then old(fetches)[f := old(fetches)[f].(stage := Answered(
                                if Spells(swiss, "gateway") then Some(Gateway)
                                else if |swiss| == 16 && Uuid(swiss) in dataChannels
                                then Some(ChannelRef(dataChannels[Uuid(swiss)])) else None))]
                         else old(fetches)
    {
      hide Next;
      var event := sent[received];
      Fetching.SpellsGateway(event.swiss);
      received := received + 1;
      fetches := Answer(fetches, event.fetch, Resolve(dataChannels, event.swiss));
      assert ManagerNext(old(View()), RecvFetchRequest, View());
      IsNext(old(View()), RecvFetchRequest, View());
    }

    /** `portals.entry(peer).or_insert_with(..)` */
    method PortalOf(peer: Key) returns (portal: nat)
      modifies this`portals, this`allPortals
      ensures portals == PortalsWith(old(portals), |old(allPortals)|, peer) && portal == portals[peer]
      ensures allPortals == if peer in old(portals) then old(allPortals) else old(allPortals) + [Portal(peer)]
    {
      if peer !in portals {
        portals := portals[peer := |allPortals|];
        allPortals := allPortals + [Portal(peer)];
      }
      portal := portals[peer];
    }

    /** One turn of the loop on a portal request, up to its await: the peer's portal, made if it has none, is
        exported to the session. */
    method ExportPortal()
      requires hand == None && received < |sent|
      requires sent[received].PortalRequest? && sent[received].session in exports
      modifies this`received, this`portals, this`allPortals, this`exports, this`hand
      ensures Next(old(View()), RecvPortalRequest, View()) && received == old(received) + 1
      ensures var (k, peer) := (sent[old(received)].session, sent[old(received)].peerKey);
              && hand == Some(Grant(sent[old(received)].auth, |old(exports)[k]|))
              && peer in portals && exports == old(exports)[k := old(exports)[k] + [PortalRef(portals[peer])]]
              && (peer in old(portals) ==> portals == old(portals) && allPortals == old(allPortals))
              && (peer !in old(portals) ==> portals == old(portals)[peer := |old(allPortals)|]
                                            && allPortals == old(allPortals) + [Portal(peer)])
    {
      hide Next;
      ghost var before := View();
      var event := sent[received];
      var k := event.session;
      var portal := PortalOf(event.peerKey);
      received, hand, exports :=
        received + 1, Some(Grant(event.auth, |exports[k]|)), Export(exports, k, PortalRef(portal));
      PortalRequestStep(before, View());
    }

    /** The await of a portal request's turn: its resolver is fulfilled with the position, or fails. */
    method FulfillPortalRequest() returns (ok: bool)
      requires hand.Some?
      modifies this`hand, this`log
      ensures Next(old(View()), MgrFulfill(ok), View()) && hand == None
      ensures var grant := old(hand).value;
              if ok then log == Log(old(log.settled) + [Settlement(AuthPromise(grant.auth), Fulfilled(grant.pos))],
                                    old(log.dropped))
              else log == Log(old(log.settled), old(log.dropped) + [AuthPromise(grant.auth)])
    {
      hide Next;
      ok := *;
      var settled := Settle(log, AuthPromise(hand.value.auth), Fulfilled(hand.value.pos), ok);
      FulfillStep(View(), ok, View().(hand := None, log := settled));
      hand, log := None, settled;
    }

    /** A turn of the loop that ends it. */
    method TakeReturned() returns (result: ChatResult, ghost step: Step)
      requires hand == None && received < |sent| && ReturnOf(sent[received]) != []
      modifies this`received, this`live, this`returned
      ensures Next(old(View()), step, View()) && received == old(received) + 1 && IsTurn(step)
      ensures [result] == ReturnOf(sent[old(received)]) && returned == old(returned) + [result]
      ensures match sent[old(received)]
              case TaskFinished(r) => result == r && live == old(live)
              case SessionStarted(k) => result == Event(SessionStartedEvent(k)) && live == old(live) + {k}
              case SessionAborted(k, reason) =>
                result == Event(SessionAbortedEvent(k, reason)) && live == old(live) - {k}
              case _ => false
    {
      hide Next;
      var event := sent[received];
      received := received + 1;
      match event {
        case TaskFinished(r) =>
          result, step := r, RecvTaskFinished;
        case SessionStarted(k) =>
          live := live + {k};
          result, step := Event(SessionStartedEvent(k)), RecvStarted;
        case SessionAborted(k, reason) =>
          live := live - {k};
          result, step := Event(SessionAbortedEvent(k, reason)), RecvAborted;
      }
      returned := returned + [result];
      ReturnedStep(old(View()), step, View());
    }

    /** A turn of the loop that goes on: a fetch is answered, or a portal request granted and fulfilled. */
    method ServeRequest() returns (ghost steps: seq<Step>)
      requires Valid(View()) && hand == None && received < |sent| && ReturnOf(sent[received]) == []
      modifies this`received, this`hand, this`portals, this`allPortals, this`exports, this`fetches, this`log
      ensures Path(old(View()), steps, View()) && Valid(View())
      ensures hand == None && received == old(received) + 1 && |fetches| == |old(fetches)|
      ensures if sent[old(received)].Fetch? then steps == [RecvFetchRequest]
              else steps == [RecvPortalRequest, MgrFulfill(true)] || steps == [RecvPortalRequest, MgrFulfill(false)]
      ensures AllTurns(steps)
    {
      hide Next, Valid;
      ghost var before := View();
      ReceivesValid(before);
      if sent[received].Fetch? {
        AnswerFetch();
        Advance(before, [], before, RecvFetchRequest, View());
        steps := [] + [RecvFetchRequest];
      } else {
        ExportPortal();
        ghost var granted := View();
        Advance(before, [], before, RecvPortalRequest, granted);
        var ok := FulfillPortalRequest();
        Advance(before, [] + [RecvPortalRequest], granted, MgrFulfill(ok), View());
        steps := [] + [RecvPortalRequest] + [MgrFulfill(ok)];
      }
    }

    /** The turns of the loop in `recv_event` before the one that ends it. */
    method ServeRequests() returns (ghost steps: seq<Step>)
      requires Valid(View()) && hand == None
      modifies this`received, this`hand, this`portals, this`allPortals, this`exports, this`fetches, this`log
      ensures Path(old(View()), steps, View()) && Valid(View()) && hand == None && AllTurns(steps)
      ensures old(received) <= received <= |sent| && AllServed(sent, old(received), received)
      ensures received < |sent| ==> ReturnOf(sent[received]) != []
    {
      hide Next, Path, Valid, AllServed, AllTurns;
      ghost var start := View();
      PathOf0(start);
      TurnsNone();
      ReceivesValid(start);
      ServedNone(sent, received);
      steps := [];
      while received < |sent| && ReturnOf(sent[received]) == []
        invariant Valid(View()) && hand == None && Path(start, steps, View()) && AllTurns(steps)
        invariant start.received <= received <= |sent| && AllServed(sent, start.received, received)
      {
        ghost var before := View();
        ghost var more := ServeRequest();
        PathConcat(start, steps, before, more, View());
        ServedOne(sent, start.received, before.received);
        TurnsConcat(steps, more);
        steps := steps + more;
      }
    }

    /** `ChatManager::recv_event`: takes events up to the first that it returns; without one it has emptied the
        queue and waits. It answers every fetch and grants every portal request on the way, by steps of the
        node alone. */
    method RecvEvent() returns (result: Option<ChatResult>, ghost steps: seq<Step>)
      requires Valid(View()) && hand == None
      modifies this`received, this`hand, this`live, this`portals, this`allPortals, this`exports, this`returned,
               this`fetches, this`log
      ensures Path(old(View()), steps, View()) && Valid(View()) && hand == None && AllTurns(steps)
      ensures old(received) <= received <= |sent|
      ensures match result
              case None => received == |sent| && returned == old(returned) && AllServed(sent, old(received), |sent|)
              case Some(r) => old(received) < received && returned == old(returned) + [r]
                              && ReturnOf(sent[received - 1]) == [r] && AllServed(sent, old(received), received - 1)
    {
      hide Next, Valid, AllServed;
      ghost var start := View();
      steps := ServeRequests();
      result := None;
      if received < |sent| {
        ghost var before := View();
        ReceivesValid(before);
        var r, step := TakeReturned();
        Advance(start, steps, before, step, View());
        return Some(r), steps + [step];
      }
    }

    // ----- the gateway

    /** A passing call is queued with its resolver. */
    method QueueRequest(a: nat)
      requires a < |auths| && auths[a].stage == Checking
      requires VerifyStrict(ledger, auths[a].peerKey, auths[a].message, auths[a].signature)
      modifies this`auths, this`sent
      ensures Next(old(View()), AuthRequest(a), View())
      ensures auths == old(auths)[a := old(auths)[a].(stage := Requested)]
      ensures sent == old(sent + [PortalRequest(auths[a].session, auths[a].peerKey, a)])
    {
      hide Next;
      var c := auths[a];
      var (calls, queue) := (AuthTo(auths, a, Requested), sent + [PortalRequest(c.session, c.peerKey, a)]);
      RequestedStep(View(), a, View().(auths := calls, sent := queue));
      auths, sent := calls, queue;
    }

    /** The promise of a failing call is broken, or lost with an error. */
    method RejectCall(a: nat) returns (ok: bool)
      requires a < |auths| && auths[a].stage == Checking
      requires !VerifyStrict(ledger, auths[a].peerKey, auths[a].message, auths[a].signature)
      modifies this`auths, this`log
      ensures Next(old(View()), AuthReject(a, ok), View())
      ensures auths == old(auths)[a := old(auths)[a].(stage := Rejected)]
      ensures if ok then log == Log(old(log.settled) + [Settlement(AuthPromise(a), Broken)], old(log.dropped))
              else log == Log(old(log.settled), old(log.dropped) + [AuthPromise(a)])
    {
      hide Next;
      ok := *;
      var (calls, settled) := (AuthTo(auths, a, Rejected), Settle(log, AuthPromise(a), Broken, ok));
      RejectedStep(View(), a, ok, View().(auths := calls, log := settled));
      auths, log := calls, settled;
    }

    /** `Gateway::authenticate`, once its signature is checked: a failing one is broken and never queued; a
        passing one is queued with its resolver. */
    method Authenticate(a: nat) returns (verified: bool, ghost step: Step)
      requires a < |auths| && auths[a].stage == Checking
      modifies this`auths, this`sent, this`log
      ensures Next(old(View()), step, View())
      ensures verified <==> old(VerifyStrict(ledger, auths[a].peerKey, auths[a].message, auths[a].signature))
      ensures auths == old(auths)[a := old(auths)[a].(stage := if verified then Requested else Rejected)]
      ensures verified ==> log == old(log) && sent == old(sent + [PortalRequest(auths[a].session, auths[a].peerKey, a)])
      ensures !verified ==> sent == old(sent) && exists ok :: log == Settle(old(log), AuthPromise(a), Broken, ok)
    {
      hide Next;
      var c := auths[a];
      verified := VerifyStrict(ledger, c.peerKey, c.message, c.signature);
      if verified {
        QueueRequest(a);
        step := AuthRequest(a);
      } else {
        var ok := RejectCall(a);
        step := AuthReject(a, ok);
        assert log == Settle(old(log), AuthPromise(a), Broken, ok);
      }
    }

    // ----- fetches

    /** `respond_to_fetch` up to its first await: a cached position is taken, a missing one is asked for. */
    method BeginFetch(f: nat) returns (hit: bool, ghost step: Step)
      requires f < |fetches| && fetches[f].stage == Asking
      requires fetches[f].session in exports && fetches[f].session in registries
      modifies this`fetches, this`sent
      ensures Next(old(View()), step, View()) && |fetches| == |old(fetches)|
      ensures hit <==> old(fetches[f].swiss in registries[fetches[f].session])
      ensures sent == if hit then old(sent) else old(sent + [Fetch(fetches[f].session, fetches[f].swiss, f)])
      ensures !hit ==> fetches == FetchTo(old(fetches), f, Waiting)
      ensures hit ==> var t := old(fetches)[f];
                      fetches == old(fetches)[f := t.(stage := Fulfilling(registries[t.session][t.swiss]))]
    {
      hide Next;
      ghost var before := View();
      var t := fetches[f];
      hit := t.swiss in registries[t.session];
      if hit {
        fetches := FetchTo(fetches, f, Fulfilling(registries[t.session][t.swiss]));
        step := FetchHit(f);
      } else {
        fetches := FetchTo(fetches, f, Waiting);
        sent := sent + [Fetch(t.session, t.swiss, f)];
        step := FetchMiss(f);
      }
      assert FetchNext(before, step, View());
      IsNext(before, step, View());
    }

    /** The answer of the manager is exported to the fetch's session, which calls its `exported` hook. */
    method ExportAnswer(f: nat)
      requires FetchAt(View(), f) && fetches[f].stage.Answered? && fetches[f].stage.answer.Some?
      modifies this`fetches, this`exports, this`allChannels
      ensures FetchAt(old(View()), f) && ExportedAt(old(View()), f, View())
      ensures Path(old(View()), [FetchExport(f), FetchHook(f)], View())
    {
      hide Next, Path, ExportedAt;
      ghost var mid := ExportedPath(View(), f);
      ExportedMeans(View(), f, mid);
      var t := fetches[f];
      var target, pos: nat := t.stage.answer.value, |exports[t.session]|;
      var (tables, hooked) := (Export(exports, t.session, target), Hooked(allChannels, target, t.session, pos));
      var caching := FetchTo(fetches, f, Caching(pos));
      exports, allChannels, fetches := tables, hooked, caching;
    }

    /** The exported position is cached and the fetch fulfilled with it. */
    method CacheExported(f: nat, ghost start: State) returns (ok: bool)
      requires FetchAt(start, f) && ExportedAt(start, f, View())
      modifies this`fetches, this`registries, this`log
      ensures View() == AfterAnswer(start, f, ok)
      ensures Path(old(View()), [FetchCache(f), FetchFulfill(f, ok)], View())
    {
      hide Next, Path, AfterAnswer, ExportedAt;
      ok := *;
      ghost var mid := View();
      CachedState(start, f, mid, ok);
      CachedPath(start, f, mid, ok);
      var t := fetches[f];
      var pos := t.stage.cachePos;
      var cached := registries[t.session := Cached(registries[t.session], t.swiss, pos)];
      var (done, settled) := (FetchTo(fetches, f, FetchDone), Settle(log, FetchPromise(f), Fulfilled(pos), ok));
      registries, fetches, log := cached, done, settled;
    }

    /** The rest of `respond_to_fetch` when the manager has answered with an object: it is exported, its position
        cached and the fetch fulfilled with it. */
    method FulfillFetch(f: nat) returns (ok: bool, ghost steps: seq<Step>)
      requires FetchAt(View(), f) && fetches[f].stage.Answered? && fetches[f].stage.answer.Some?
      modifies this`fetches, this`exports, this`registries, this`allChannels, this`log
      ensures View() == AfterAnswer(old(View()), f, ok) && Path(old(View()), steps, View())
    {
      hide Next, Path, AfterAnswer, ExportedAt;
      ghost var start := View();
      ExportAnswer(f);
      ghost var mid := View();
      ok := CacheExported(f, start);
      PathConcat(start, [FetchExport(f), FetchHook(f)], mid, [FetchCache(f), FetchFulfill(f, ok)], View());
      steps := [FetchExport(f), FetchHook(f)] + [FetchCache(f), FetchFulfill(f, ok)];
    }

    /** The rest of `respond_to_fetch` when the manager has answered that it knows nothing: the fetch is broken,
        and nothing is exported or cached. */
    method BreakFetch(f: nat) returns (ok: bool, ghost steps: seq<Step>)
      requires FetchAt(View(), f) && fetches[f].stage == Answered(None)
      modifies this`fetches, this`log
      ensures View() == AfterAnswer(old(View()), f, ok) && Path(old(View()), steps, View())
    {
      hide Next;
      ghost var before := View();
      ok := *;
      fetches, log := FetchTo(fetches, f, FetchDone), Settle(log, FetchPromise(f), Broken, ok);
      steps := AnswerPath(before, f, ok);
    }

    /** `manage_session` after its loop: every fetch task of the session that is left is aborted and joined. */
    method DrainFetches(k: Key) returns (ghost steps: seq<Step>)
      requires Valid(View()) && k in phases && phases[k] == Ended
      modifies this`fetches, this`log
      ensures Path(old(View()), steps, View()) && Valid(View())
      ensures Drained(old(fetches), k, fetches) && log.settled == old(log.settled)
    {
      hide Next, Valid;
      ghost var start := View();
      FetchesKnown(start);
      steps := [];
      for f := 0 to |fetches|
        invariant Path(start, steps, View()) && Valid(View()) && View() == start.(fetches := fetches, log := log)
        invariant |fetches| == |start.fetches| && log.settled == start.log.settled
        invariant forall g :: f <= g < |fetches| ==> fetches[g] == start.fetches[g]
        invariant forall g :: 0 <= g < f ==>
                    fetches[g] == if start.fetches[g].session == k then start.fetches[g].(stage := FetchDone)
                                  else start.fetches[g]
      {
        if fetches[f].session == k && fetches[f].stage != FetchDone {
          ghost var before := View();
          assert FetchAt(start, f);
          fetches := FetchTo(fetches, f, FetchDone);
          log := Drop(log, FetchPromise(f));
          AbortStep(before, f, View());
          Advance(start, steps, before, FetchAbort(f), View());
          steps := steps + [FetchAbort(f)];
        }
      }
    }

    /** `tasks.spawn(respond_to_fetch(..))` */
    method SpawnFetch(k: Key, swiss: Bytes)
      requires k in phases && phases[k] == Running
      modifies this`fetches
      ensures Next(old(View()), RecvFetch(k, swiss), View())
      ensures fetches == old(fetches) + [FetchTask(k, swiss, Asking)]
    {
      hide Next;
      fetches := fetches + [FetchTask(k, swiss, Asking)];
      assert SessionNext(old(View()), RecvFetch(k, swiss), View());
      IsNext(old(View()), RecvFetch(k, swiss), View());
    }

    /** The loop of `manage_session` breaks; only a peer's abort is reported to the manager. */
    method BreakLoop(k: Key, input: SessionInput) returns (ghost step: Step)
      requires k in phases && phases[k] == Running && Breaks(input)
      modifies this`phases, this`sent
      ensures Next(old(View()), step, View())
      ensures phases == old(phases)[k := Ended] && sent == old(sent) + Reported(k, input)
      ensures sent == if input.Aborts? then old(sent) + [SessionAborted(k, input.reason)] else old(sent)
    {
      hide Next;
      ghost var before := View();
      phases := phases[k := Ended];
      match input {
        case Aborts(reason) =>
          sent := sent + [SessionAborted(k, reason)];
          step := RecvAbort(k, reason);
        case _ =>
          step := LoopEnd(k);
      }
      assert SessionNext(before, step, View());
      IsNext(before, step, View());
    }

    /** While a session's loop waits, another task may go on: a fetch task of any session, or the manager. */
    method Meanwhile() returns (ghost steps: seq<Step>)
      requires Valid(View())
      modifies this`exports, this`registries, this`sent, this`received, this`hand, this`portals, this`allPortals,
               this`allChannels, this`fetches, this`log
      ensures Path(old(View()), steps, View()) && Valid(View()) && Grows(old(View()), View())
      ensures |fetches| == |old(fetches)|
    {
      hide Next, Valid, Grows;
      ghost var before := View();
      steps := [];
      FetchesKnown(before);
      ReceivesValid(before);
      var f: int := *;
      if 0 <= f < |fetches| {
        assert FetchAt(before, f);
        match fetches[f].stage {
          case Asking =>
            var _, step := BeginFetch(f);
            PathPlus(before, [], before, step, View());
            steps := [] + [step];
          case Answered(Some(_)) =>
            var _, more := FulfillFetch(f);
            steps := more;
          case Answered(None) =>
            var _, more := BreakFetch(f);
            steps := more;
          case _ =>
        }
      } else if hand == None && received < |sent| && ReturnOf(sent[received]) == [] {
        steps := ServeRequest();
      }
      PathGrows(before, steps, View());
    }

    /** A turn of the loop of `manage_session` that does not break it, after the other tasks went on. */
    method SessionTurn(k: Key, inputs: seq<SessionInput>, taken: nat, ghost start: State, ghost steps: seq<Step>)
      returns (ghost more: seq<Step>)
      requires Valid(View()) && k in phases && phases[k] == Running && taken < |inputs| && !Breaks(inputs[taken])
      requires Path(start, steps, View()) && SpawnedUpTo(start.fetches, k, inputs, taken, fetches)
      modifies this`exports, this`registries, this`sent, this`received, this`hand, this`portals, this`allPortals,
               this`allChannels, this`fetches, this`log
      ensures Path(start, steps + more, View()) && Valid(View())
      ensures SpawnedUpTo(start.fetches, k, inputs, taken + 1, fetches)
    {
      hide Next, Valid, Grows, SpawnedUpTo;
      ghost var earlier := View();
      more := Meanwhile();
      ghost var before := View();
      PathConcat(start, steps, earlier, more, before);
      SpawnedWait(start.fetches, k, inputs, taken, earlier, before);
      if inputs[taken].Fetches? {
        ghost var step := RecvFetch(k, inputs[taken].swiss);
        SpawnFetch(k, inputs[taken].swiss);
        Advance(start, steps + more, before, step, View());
        assert steps + more + [step] == steps + (more + [step]);
        more := more + [step];
      }
      SpawnedOne(start.fetches, k, inputs, taken, before.fetches, fetches);
    }

    /** The loop of `manage_session` up to the input that breaks it: one fetch task for every fetch, in order. The
        tasks go on while the loop waits. */
    method SpawnFetches(k: Key, inputs: seq<SessionInput>) returns (taken: nat, ghost steps: seq<Step>)
      requires Valid(View()) && k in phases && phases[k] == Running
      modifies this`exports, this`registries, this`sent, this`received, this`hand, this`portals, this`allPortals,
               this`allChannels, this`fetches, this`log
      ensures Path(old(View()), steps, View()) && Valid(View()) && Grows(old(View()), View())
      ensures taken <= |inputs| && forall i :: 0 <= i < taken ==> !Breaks(inputs[i])
      ensures taken < |inputs| ==> Breaks(inputs[taken])
      ensures SpawnedUpTo(old(fetches), k, inputs, taken, fetches)
    {
      hide Next, Path, Valid, Grows, SpawnedUpTo;
      ghost var start := View();
      PathOf0(start);
      SpawnedNone(fetches, k, inputs);
      PathGrows(start, [], start);
      steps, taken := [], 0;
      while taken < |inputs| && !Breaks(inputs[taken])
        invariant taken <= |inputs| && forall i :: 0 <= i < taken ==> !Breaks(inputs[i])
        invariant Path(start, steps, View()) && Valid(View())
        invariant SpawnedUpTo(start.fetches, k, inputs, taken, fetches)
      {
        ghost var more := SessionTurn(k, inputs, taken, start, steps);
        steps, taken := steps + more, taken + 1;
      }
      PathGrows(start, steps, View());
    }

    /** `manage_session`, given the inputs that its `select!` gets: one fetch task for every fetch before the input
        that breaks the loop, in order, and none after, while the tasks go on; then every task of the session is
        aborted. Without such an input it goes on waiting. */
    method ManageSession(k: Key, inputs: seq<SessionInput>) returns (taken: nat, ghost steps: seq<Step>)
      requires Valid(View()) && k in phases && phases[k] == Running
      modifies this`phases, this`exports, this`registries, this`sent, this`received, this`hand, this`portals,
               this`allPortals, this`allChannels, this`fetches, this`log
      ensures Path(old(View()), steps, View()) && Valid(View())
      ensures taken <= |inputs| && forall i :: 0 <= i < taken ==> !Breaks(inputs[i])
      ensures forall i :: 0 <= i < taken ==> inputs[i].Fetches? || inputs[i] == EndFlag(false)
      ensures taken < |inputs| ==> inputs[taken].Aborts? || inputs[taken].Fails? || inputs[taken] == EndFlag(true)
      ensures taken <= |inputs| && SpawnedUpTo(old(fetches), k, inputs, taken, fetches)
      ensures old(log.settled) <= log.settled
      ensures if taken == |inputs| then phases == old(phases) && old(sent) <= sent
              else Breaks(inputs[taken]) && phases == old(phases)[k := Ended]
                   && (exists mid :: old(sent) <= mid && sent == mid + Reported(k, inputs[taken]))
                   && forall f :: 0 <= f < |fetches| && fetches[f].session == k ==> fetches[f].stage == FetchDone
    {
      hide Next, Valid, Grows, Drained, SpawnedUpTo, Reported;
      ghost var start := View();
      taken, steps := SpawnFetches(k, inputs);
      SentGrows(start, View());
      if taken < |inputs| {
        ghost var before := View();
        ghost var step := BreakLoop(k, inputs[taken]);
        ghost var broken := View();
        Advance(start, steps, before, step, broken);
        ghost var draining := DrainFetches(k);
        PathConcat(start, steps + [step], broken, draining, View());
        steps := steps + [step] + draining;
        DrainedSpawned(start.fetches, k, inputs, taken, broken.fetches, fetches);
        assert sent == before.sent + Reported(k, inputs[taken]);
      }
    }

    // ----- portals

    /** A session calls `list_channels` on a portal. */
    method CallList(k: Key, at: nat) returns (l: nat)
      requires k in exports && at < |exports[k]| && exports[k][at].PortalRef?
      modifies this`lists
      ensures Next(old(View()), Step.CallList(k, at), View()) && l == |old(lists)|
      ensures lists == old(lists) + [ListCall(k, channels.Keys, {}, [], None)]
    {
      hide Next;
      l := |lists|;
      ghost var after := View().(lists := lists + [ListCall(k, channels.Keys, {}, [], None)]);
      CalledList(View(), k, at, after);
      lists := lists + [ListCall(k, channels.Keys, {}, [], None)];
    }

    /** The iteration visits one entry. */
    method ListEntry(l: nat, id: Uuid)
      requires l < |lists| && lists[l].answer == None && id !in lists[l].visited
      requires id in channels && channels[id] < |allChannels|
      modifies this`lists
      ensures Next(old(View()), VisitEntry(l, id), View())
      ensures var (list, channel) := (old(lists)[l], allChannels[channels[id]]);
              lists == old(lists)[l := list.(visited := list.visited + {id},
                                             listing := list.listing + [Listing(channel.id, channel.info)])]
    {
      hide Next;
      var (list, channel) := (lists[l], allChannels[channels[id]]);
      var more := lists[l := list.(visited := list.visited + {id},
                                   listing := list.listing + [Listing(channel.id, channel.info)])];
      VisitedStep(View(), l, id, View().(lists := more));
      lists := more;
    }

    /** `Portal::list_channels`, uninterrupted: the listings of all entries of the shared map. */
    method ListChannels(l: nat) returns (listing: seq<Listing>, ghost steps: seq<Step>)
      requires ChannelsValid(channels, allChannels)
      requires l < |lists| && lists[l] == ListCall(lists[l].session, channels.Keys, {}, [], None)
      modifies this`lists
      ensures Path(old(View()), steps, View()) && |lists| == |old(lists)| && lists[l].answer == Some(listing)
      ensures forall id, info :: Listing(id, info) in listing <==>
                id in channels && allChannels[channels[id]].info == info
      ensures |listing| == |channels|
    {
      hide Next, Path, ListedUpTo;
      ghost var start := View();
      PathOf0(start);
      ListedNone(start, l);
      steps := [];
      var rest := channels.Keys;
      while rest != {}
        invariant Path(start, steps, View()) && ListedUpTo(View(), l, rest) && |lists| == |start.lists|
        decreases |rest|
      {
        var id :| id in rest;
        ListNext(l, id, rest, start, steps);
        steps, rest := steps + [VisitEntry(l, id)], rest - {id};
      }
      listing := EndList(l, start, steps);
      steps := steps + [AnswerList(l)];
    }

    /** One turn of the iteration. */
    method ListNext(l: nat, id: Uuid, ghost rest: set<Uuid>, ghost start: State, ghost steps: seq<Step>)
      requires ListedUpTo(View(), l, rest) && id in rest && Path(start, steps, View())
      modifies this`lists
      ensures ListedUpTo(View(), l, rest - {id}) && |lists| == |old(lists)|
      ensures Path(start, steps + [VisitEntry(l, id)], View())
    {
      hide Next, Path, ListedUpTo;
      ghost var before := View();
      ListedMeans(before, l, rest, id);
      ListEntry(l, id);
      ListedNext(before, l, rest, id, View());
      PathPlus(start, steps, before, VisitEntry(l, id), View());
    }

    /** The iteration is over, and the call answers. */
    method EndList(l: nat, ghost start: State, ghost steps: seq<Step>) returns (listing: seq<Listing>)
      requires ListedUpTo(View(), l, {}) && Path(start, steps, View()) && ChannelsValid(channels, allChannels)
      modifies this`lists
      ensures |lists| == |old(lists)| && l < |lists| && lists[l].answer == Some(listing)
      ensures Path(start, steps + [AnswerList(l)], View())
      ensures forall id, info :: Listing(id, info) in listing <==>
                id in channels && allChannels[channels[id]].info == info
      ensures |listing| == |channels|
    {
      hide Next, Path, ListedUpTo, ListedFrom;
      ghost var before := View();
      ListedAll(before, l);
      listing := lists[l].listing;
      var answered := lists[l := lists[l].(answer := Some(listing))];
      AnsweredStep(before, l, before.(lists := answered));
      lists := answered;
      PathPlus(start, steps, before, AnswerList(l), View());
    }

    /** `Portal::connect`, uninterrupted: an unknown id is refused; otherwise the channel's cached position is
        used, or the channel is exported, and the caller's outbox is installed. */
    method Connect(n: nat) returns (position: Option<nat>, ghost steps: seq<Step>)
      requires Connectable(View(), n)
      modifies this`connects, this`exports, this`allChannels
      ensures View() == AfterConnect(old(View()), n) && Path(old(View()), steps, View())
      ensures position == PositionOf(connects, n)
    {
      hide Next, ObjectsValid, AfterConnect, Path;
      ConnectableMeans(View(), n);
      steps := ConnectPath(View(), n);
      ConnectState(View(), n);
      var t := connects[n];
      if t.id !in channels {
        connects := ConnectTo(connects, n, Unrecognized);
        return None, steps;
      }
      var c := channels[t.id];
      var channel, tables := allChannels[c], exports;
      var pos: nat := |tables[t.session]|;
      if t.session in channel.exportedAt {
        pos := channel.exportedAt[t.session];
      } else {
        tables, channel := Export(tables, t.session, ChannelRef(c)), Exported(channel, t.session, pos);
      }
      var outbox := Outbox(t.kind.outbox, allPortals[t.kind.portal].remoteKey);
      var (done, joined) := (ConnectTo(connects, n, Connected(c, pos)),
                             allChannels[c := ConnectPeer(channel, t.session, outbox)]);
      connects, exports, allChannels := done, tables, joined;
      position := Some(pos);
    }
  }

  /** The listing has exactly one entry for each id of `ids`, that of its registered channel. */
  ghost predicate ListedFrom(s: State, listing: seq<Listing>, ids: set<Uuid>) {
    && ids <= s.channels.Keys && ChannelsValid(s.channels, s.allChannels) && |listing| == |ids|
    && forall id, info :: Listing(id, info) in listing <==> id in ids && s.allChannels[s.channels[id]].info == info
  }

  lemma ListedMore(s: State, listing: seq<Listing>, ids: set<Uuid>, id: Uuid)
    requires id in s.channels && id !in ids && ChannelsValid(s.channels, s.allChannels)
    requires var channel := s.allChannels[s.channels[id]];
             && listing != [] && Last(listing) == Listing(channel.id, channel.info)
             && ListedFrom(s, Front(listing), ids)
    ensures ListedFrom(s, listing, ids + {id})
  {
    assert listing == Front(listing) + [Last(listing)];
  }

  /** The call has listed all ids but those of `rest`. */
  ghost predicate ListedUpTo(s: State, l: nat, rest: set<Uuid>) {
    && l < |s.lists| && rest <= s.channels.Keys
    && s.lists[l].before == s.channels.Keys && s.lists[l].visited == s.channels.Keys - rest && s.lists[l].answer == None
    && ListedFrom(s, s.lists[l].listing, s.lists[l].visited)
  }

  lemma ListedNone(s: State, l: nat)
    requires ChannelsValid(s.channels, s.allChannels)
    requires l < |s.lists| && s.lists[l] == ListCall(s.lists[l].session, s.channels.Keys, {}, [], None)
    ensures ListedUpTo(s, l, s.channels.Keys)
  {
  }

  lemma ListedMeans(s: State, l: nat, rest: set<Uuid>, id: Uuid)
    requires ListedUpTo(s, l, rest) && id in rest
    ensures l < |s.lists| && s.lists[l].answer == None && id !in s.lists[l].visited
    ensures id in s.channels && s.channels[id] < |s.allChannels|
  {
  }

  lemma ListedNext(s: State, l: nat, rest: set<Uuid>, id: Uuid, s': State)
    requires ListedUpTo(s, l, rest) && id in rest && id in s.channels && s.channels[id] < |s.allChannels|
    requires var (list, channel) := (s.lists[l], s.allChannels[s.channels[id]]);
             s' == s.(lists := s.lists[l := list.(visited := list.visited + {id},
                                                  listing := list.listing + [Listing(channel.id, channel.info)])])
    ensures ListedUpTo(s', l, rest - {id})
  {
    assert Front(s'.lists[l].listing) == s.lists[l].listing;
    ListedMore(s, s'.lists[l].listing, s.lists[l].visited, id);
    assert s'.lists[l].visited == s'.channels.Keys - (rest - {id});
  }

  lemma ListedAll(s: State, l: nat)
    requires ListedUpTo(s, l, {})
    ensures l < |s.lists| && s.lists[l].answer == None && s.lists[l].before <= s.lists[l].visited
    ensures ChannelsValid(s.channels, s.allChannels) && var listing := s.lists[l].listing;
            && |listing| == |s.channels|
            && forall id, info :: Listing(id, info) in listing <==>
                 id in s.channels && s.allChannels[s.channels[id]].info == info
  {
    assert s.channels.Keys - {} == s.channels.Keys;
  }

  lemma CalledList(s: State, k: Key, at: nat, s': State)
    requires k in s.exports && at < |s.exports[k]| && s.exports[k][at].PortalRef?
    requires s' == s.(lists := s.lists + [ListCall(k, s.channels.Keys, {}, [], None)])
    ensures Next(s, CallList(k, at), s')
  {
    assert ChannelNext(s, CallList(k, at), s');
  }

  lemma VisitedStep(s: State, l: nat, id: Uuid, s': State)
    requires l < |s.lists| && s.lists[l].answer == None && id !in s.lists[l].visited
    requires id in s.channels && s.channels[id] < |s.allChannels|
    requires var (list, channel) := (s.lists[l], s.allChannels[s.channels[id]]);
             s' == s.(lists := s.lists[l := list.(visited := list.visited + {id},
                                                  listing := list.listing + [Listing(channel.id, channel.info)])])
    ensures Next(s, VisitEntry(l, id), s')
  {
    assert ChannelNext(s, VisitEntry(l, id), s');
  }

  lemma AnsweredStep(s: State, l: nat, s': State)
    requires l < |s.lists| && s.lists[l].answer == None && s.lists[l].before <= s.lists[l].visited
    requires s' == s.(lists := s.lists[l := s.lists[l].(answer := Some(s.lists[l].listing))])
    ensures Next(s, AnswerList(l), s')
  {
    assert ChannelNext(s, AnswerList(l), s');
  }

  lemma FulfillStep(s: State, ok: bool, s': State)
    requires s.hand.Some?
    requires s' == s.(hand := None,
                      log := Settle(s.log, AuthPromise(s.hand.value.auth), Fulfilled(s.hand.value.pos), ok))
    ensures Next(s, MgrFulfill(ok), s')
  {
    assert ManagerNext(s, MgrFulfill(ok), s');
  }

  lemma SignStep(s: State, entry: Signed, s': State)
    requires s' == s.(ledger := s.ledger + {entry})
    ensures Next(s, Step.Sign(entry), s')
  {
    assert GatewayNext(s, Step.Sign(entry), s');
  }

  lemma IsNext(s: State, step: Step, s': State)
    requires NetNext(s, step, s') || SessionNext(s, step, s') || FetchNext(s, step, s') || GatewayNext(s, step, s')
             || ManagerNext(s, step, s') || ChannelNext(s, step, s') || PortalNext(s, step, s')
    ensures Next(s, step, s')
  {
    hide NetNext, SessionNext, FetchNext, GatewayNext, ManagerNext, ChannelNext, PortalNext;
  }

  lemma PortalRequestStep(s: State, s': State)
    requires CanReceive(s) && s.sent[s.received].PortalRequest? && s.sent[s.received].session in s.exports
    requires var (k, peer) := (s.sent[s.received].session, s.sent[s.received].peerKey);
             var portals := PortalsWith(s.portals, |s.allPortals|, peer);
             s' == s.(received := s.received + 1, portals := portals,
                      allPortals := if peer in s.portals then s.allPortals else s.allPortals + [Portal(peer)],
                      hand := Some(Grant(s.sent[s.received].auth, |s.exports[k]|)),
                      exports := Export(s.exports, k, PortalRef(portals[peer])))
    ensures Next(s, RecvPortalRequest, s')
  {
  }

  lemma RequestedStep(s: State, a: nat, s': State)
    requires a < |s.auths| && s.auths[a].stage == Checking && var c := s.auths[a];
             && VerifyStrict(s.ledger, c.peerKey, c.message, c.signature)
             && s' == s.(auths := AuthTo(s.auths, a, Requested),
                         sent := s.sent + [PortalRequest(c.session, c.peerKey, a)])
    ensures Next(s, AuthRequest(a), s')
  {
  }

  lemma RejectedStep(s: State, a: nat, ok: bool, s': State)
    requires a < |s.auths| && s.auths[a].stage == Checking && var c := s.auths[a];
             && !VerifyStrict(s.ledger, c.peerKey, c.message, c.signature)
             && s' == s.(auths := AuthTo(s.auths, a, Rejected), log := Settle(s.log, AuthPromise(a), Broken, ok))
    ensures Next(s, AuthReject(a, ok), s')
  {
  }

  lemma ReturnedStep(s: State, step: Step, s': State)
    requires CanReceive(s) && s' == s.(received := s.received + 1, live := s'.live, returned := s'.returned)
    requires s'.returned == s.returned + ReturnOf(s.sent[s.received])
    requires match s.sent[s.received]
             case TaskFinished(_) => step == RecvTaskFinished && s'.live == s.live
             case SessionStarted(k) => step == RecvStarted && s'.live == s.live + {k}
             case SessionAborted(k, _) => step == RecvAborted && s'.live == s.live - {k}
             case _ => false
    ensures Next(s, step, s')
  {
  }

  lemma ReceivesValid(s: State)
    requires Valid(s)
    ensures s.received <= |s.sent|
    ensures s.hand == None && s.received < |s.sent| ==> CanReceive(s)
    ensures s.received < |s.sent| && s.sent[s.received].PortalRequest? ==> s.sent[s.received].session in s.exports
  {
    assert s.received < |s.sent| ==> EventValid(s.sent[s.received], s.auths, s.fetches, s.phases);
  }

  lemma Advance(start: State, steps: seq<Step>, before: State, step: Step, after: State)
    requires Path(start, steps, before) && Valid(before) && Next(before, step, after)
    ensures Path(start, steps + [step], after) && Valid(after)
  {
    hide Next, Valid;
    PathPlus(start, steps, before, step, after);
    StepKeepsValid(before, step, after);
  }

  /** Along any stretch the state stays valid and grows. */
  lemma PathGrows(a: State, steps: seq<Step>, b: State)
    requires Path(a, steps, b) && Valid(a)
    ensures Valid(b) && Grows(a, b)
  {
    hide Next, Valid, Grows;
    GrowsItself(a);
    forall s, step, s' | GrownFrom(a, s) && Next(s, step, s') ensures GrownFrom(a, s') {
      StepKeepsValid(s, step, s');
      StepGrows(s, step, s');
      GrowsTransitive(a, s, s');
    }
    LeadsKeeps(Next, s => GrownFrom(a, s), a, steps, b);
  }

  ghost predicate GrownFrom(a: State, s: State) {
    Valid(s) && Grows(a, s)
  }

  lemma GrowsItself(a: State)
    ensures Grows(a, a)
  {
  }

  lemma SentGrows(a: State, b: State)
    requires Grows(a, b)
    ensures a.sent <= b.sent && a.log.settled <= b.log.settled
  {
  }

  lemma TurnsNone()
    ensures AllTurns([])
  {
  }

  lemma TurnsConcat(xs: seq<Step>, ys: seq<Step>)
    requires AllTurns(xs) && AllTurns(ys)
    ensures AllTurns(xs + ys)
  {
  }

  lemma ServedNone(sent: seq<NetworkEvent>, i: nat)
    requires i <= |sent|
    ensures AllServed(sent, i, i)
  {
  }

  lemma ServedOne(sent: seq<NetworkEvent>, i: nat, j: nat)
    requires AllServed(sent, i, j) && j < |sent| && ReturnOf(sent[j]) == []
    ensures AllServed(sent, i, j + 1)
  {
  }

  lemma SpawnedNone(fetches: seq<FetchTask>, k: Key, inputs: seq<SessionInput>)
    ensures SpawnedUpTo(fetches, k, inputs, 0, fetches)
  {
  }

  lemma SpawnedWait(start: seq<FetchTask>, k: Key, inputs: seq<SessionInput>, taken: nat, a: State, b: State)
    requires taken <= |inputs| && SpawnedUpTo(start, k, inputs, taken, a.fetches)
    requires Grows(a, b) && |b.fetches| == |a.fetches|
    ensures SpawnedUpTo(start, k, inputs, taken, b.fetches)
  {
  }

  lemma SpawnedOne(start: seq<FetchTask>, k: Key, inputs: seq<SessionInput>, taken: nat, before: seq<FetchTask>,
                   after: seq<FetchTask>)
    requires taken < |inputs| && SpawnedUpTo(start, k, inputs, taken, before)
    requires after == if inputs[taken].Fetches? then before + [FetchTask(k, inputs[taken].swiss, Asking)] else before
    ensures SpawnedUpTo(start, k, inputs, taken + 1, after)
  {
    var tasks := TasksFor(k, inputs[..taken]);
    assert Front(inputs[..taken + 1]) == inputs[..taken];
    if inputs[taken].Fetches? {
      var task := FetchTask(k, inputs[taken].swiss, Asking);
      assert start + (tasks + [task]) == start + tasks + [task];
    }
  }

  lemma DrainedSpawned(start: seq<FetchTask>, k: Key, inputs: seq<SessionInput>, taken: nat, fetches: seq<FetchTask>,
                       after: seq<FetchTask>)
    requires taken <= |inputs| && SpawnedUpTo(start, k, inputs, taken, fetches) && Drained(fetches, k, after)
    ensures SpawnedUpTo(start, k, inputs, taken, after)
    ensures forall f :: 0 <= f < |after| && after[f].session == k ==> after[f].stage == FetchDone
  {
  }

  lemma FetchesKnown(s: State)
    requires Valid(s)
    ensures forall f :: 0 <= f < |s.fetches| ==> FetchAt(s, f)
  {
  }

  lemma AbortStep(s: State, f: nat, s': State)
    requires FetchAt(s, f) && s.fetches[f].session in s.phases && s.phases[s.fetches[f].session] == Ended
    requires s.fetches[f].stage != FetchDone
    requires s' == s.(fetches := FetchTo(s.fetches, f, FetchDone), log := Drop(s.log, FetchPromise(f)))
    ensures Next(s, FetchAbort(f), s')
  {
  }

  /** What an answered fetch task does when nothing else runs meanwhile. */
  function AfterAnswer(s: State, f: nat, ok: bool): State
    requires FetchAt(s, f) && s.fetches[f].stage.Answered?
  {
    var t := s.fetches[f];
    var fetches := FetchTo(s.fetches, f, FetchDone);
    match t.stage.answer
    case None => s.(fetches := fetches, log := Settle(s.log, FetchPromise(f), Broken, ok))
    case Some(target) =>
      var pos: nat := |s.exports[t.session]|;
      s.(fetches := fetches, exports := Export(s.exports, t.session, target),
         allChannels := Hooked(s.allChannels, target, t.session, pos),
         registries := s.registries[t.session := Cached(s.registries[t.session], t.swiss, pos)],
         log := Settle(s.log, FetchPromise(f), Fulfilled(pos), ok))
  }

  /** The state after `RemotePortal::connect` exported its own channel. */
  ghost function AfterOwn(s: State, k: Key, id: Uuid, info: ChannelInfo): State
    requires k in s.exports
  {
    var c, pos: nat := |s.allChannels|, |s.exports[k]|;
    s.(connects := s.connects + [ConnectTask(k, Outgoing, id, Connected(c, pos))],
       exports := Export(s.exports, k, ChannelRef(c)),
       allChannels := s.allChannels + [Exported(NewChannel(id, info), k, pos)])
  }

  lemma OwnExportSteps(s: State, k: Key, id: Uuid, info: ChannelInfo) returns (s1: State, s2: State)
    requires k in s.exports
    ensures Next(s, Step.RemoteConnect(k, id, info), s1) && Next(s1, ConnectExport(|s.connects|), s2)
    ensures var c, pos: nat := |s.allChannels|, |s.exports[k]|;
            s2 == s.(connects := s.connects + [ConnectTask(k, Outgoing, id, HookingChannel(c, pos))],
                     exports := Export(s.exports, k, ChannelRef(c)),
                     allChannels := s.allChannels + [NewChannel(id, info)])
  {
    var c, n, pos: nat := |s.allChannels|, |s.connects|, |s.exports[k]|;
    s1 := s.(connects := s.connects + [ConnectTask(k, Outgoing, id, Exporting(c))],
             allChannels := s.allChannels + [NewChannel(id, info)]);
    s2 := s1.(connects := ConnectTo(s1.connects, n, HookingChannel(c, pos)),
              exports := Export(s.exports, k, ChannelRef(c)));
    assert s2.connects == s.connects + [ConnectTask(k, Outgoing, id, HookingChannel(c, pos))];
    assert PortalNext(s, Step.RemoteConnect(k, id, info), s1) && PortalNext(s1, ConnectExport(n), s2);
  }

  lemma OwnHookStep(s: State, k: Key, id: Uuid, info: ChannelInfo, s2: State)
    requires k in s.exports
    requires var c, pos: nat := |s.allChannels|, |s.exports[k]|;
             s2 == s.(connects := s.connects + [ConnectTask(k, Outgoing, id, HookingChannel(c, pos))],
                      exports := Export(s.exports, k, ChannelRef(c)),
                     allChannels := s.allChannels + [NewChannel(id, info)])
    ensures Next(s2, ConnectHook(|s.connects|), AfterOwn(s, k, id, info))
  {
    var (end, c, n) := (AfterOwn(s, k, id, info), |s.allChannels|, |s.connects|);
    assert end.connects == ConnectTo(s2.connects, n, end.connects[n].stage);
    assert end.allChannels == Hooked(s2.allChannels, ChannelRef(c), k, |s.exports[k]|);
    assert PortalNext(s2, ConnectHook(n), end);
  }

  lemma OwnConnectPath(s: State, k: Key, id: Uuid, info: ChannelInfo) returns (steps: seq<Step>)
    requires k in s.exports
    ensures Path(s, steps, AfterOwn(s, k, id, info))
  {
    hide Next, AfterOwn;
    var (call, n) := (Step.RemoteConnect(k, id, info), |s.connects|);
    var s1, s2 := OwnExportSteps(s, k, id, info);
    OwnHookStep(s, k, id, info, s2);
    PathOf2(s, call, s1, ConnectExport(n), s2);
    PathPlus(s, [call, ConnectExport(n)], s2, ConnectHook(n), AfterOwn(s, k, id, info));
    steps := [call, ConnectExport(n)] + [ConnectHook(n)];
  }

  lemma PathOf0(a: State)
    ensures Path(a, [], a)
  {
  }

  lemma PathOf2(a: State, x: Step, b: State, y: Step, c: State)
    requires Next(a, x, b) && Next(b, y, c)
    ensures Path(a, [x, y], c)
  {
    hide Next;
    LeadsTwo(Next, a, x, b, y, c);
  }

  lemma AnswerPath(s: State, f: nat, ok: bool) returns (steps: seq<Step>)
    requires FetchAt(s, f) && s.fetches[f].stage.Answered?
    ensures Path(s, steps, AfterAnswer(s, f, ok))
  {
    var end := AfterAnswer(s, f, ok);
    if s.fetches[f].stage.answer == None {
      assert FetchNext(s, FetchBreak(f, ok), end);
      PathPlus(s, [], s, FetchBreak(f, ok), end);
      steps := [] + [FetchBreak(f, ok)];
    } else {
      var mid := ExportedPath(s, f);
      CachedPath(s, f, mid, ok);
      PathConcat(s, [FetchExport(f), FetchHook(f)], mid, [FetchCache(f), FetchFulfill(f, ok)], end);
      steps := [FetchExport(f), FetchHook(f)] + [FetchCache(f), FetchFulfill(f, ok)];
    }
  }

  /** The answer is at the end of the session's table, and if it is a channel, it remembers that position. */
  ghost predicate ExportedAt(s: State, f: nat, mid: State)
    requires FetchAt(s, f)
  {
    var t := s.fetches[f];
    && t.stage.Answered? && t.stage.answer.Some?
    && var (k, target, pos) := (t.session, t.stage.answer.value, |s.exports[t.session]|);
    && mid == s.(fetches := s.fetches[f := t.(stage := Caching(pos))],
                 exports := s.exports[k := s.exports[k] + [target]],
                 allChannels := Remembering(s.allChannels, target, k, pos))
  }

  ghost function Remembering(channels: seq<Channel>, target: Object, k: Key, pos: nat): seq<Channel> {
    match target
    case ChannelRef(c) =>
      if c < |channels| then channels[c := channels[c].(exportedAt := channels[c].exportedAt[k := pos])] else channels
    case _ => channels
  }

  lemma ExportedPath(s: State, f: nat) returns (mid: State)
    requires FetchAt(s, f) && s.fetches[f].stage.Answered? && s.fetches[f].stage.answer.Some?
    ensures ExportedAt(s, f, mid) && Path(s, [FetchExport(f), FetchHook(f)], mid)
  {
    var t := s.fetches[f];
    var target, pos: nat := t.stage.answer.value, |s.exports[t.session]|;
    var s1 := s.(fetches := FetchTo(s.fetches, f, Hooking(target, pos)),
                 exports := Export(s.exports, t.session, target));
    mid := s1.(fetches := FetchTo(s1.fetches, f, Caching(pos)),
               allChannels := Hooked(s.allChannels, target, t.session, pos));
    assert mid.fetches == FetchTo(s.fetches, f, Caching(pos));
    assert FetchNext(s, FetchExport(f), s1) && FetchNext(s1, FetchHook(f), mid);
    PathOf2(s, FetchExport(f), s1, FetchHook(f), mid);
  }

  lemma ExportedMeans(s: State, f: nat, mid: State)
    requires FetchAt(s, f) && ExportedAt(s, f, mid)
    ensures var t := s.fetches[f];
            && t.stage.Answered? && t.stage.answer.Some?
            && var target, pos: nat := t.stage.answer.value, |s.exports[t.session]|;
            mid == s.(fetches := FetchTo(s.fetches, f, Caching(pos)), exports := Export(s.exports, t.session, target),
                      allChannels := Hooked(s.allChannels, target, t.session, pos))
  {
  }

  lemma CachedState(s: State, f: nat, mid: State, ok: bool)
    requires FetchAt(s, f) && ExportedAt(s, f, mid)
    ensures FetchAt(mid, f) && mid.fetches[f].stage.Caching? && var t := mid.fetches[f];
            var registry := Cached(mid.registries[t.session], t.swiss, t.stage.cachePos);
            AfterAnswer(s, f, ok) ==
            mid.(registries := mid.registries[t.session := registry],
                 fetches := FetchTo(mid.fetches, f, FetchDone),
                 log := Settle(mid.log, FetchPromise(f), Fulfilled(t.stage.cachePos), ok))
  {
    assert FetchTo(mid.fetches, f, FetchDone) == FetchTo(s.fetches, f, FetchDone);
  }

  lemma CachedPath(s: State, f: nat, mid: State, ok: bool)
    requires FetchAt(s, f) && ExportedAt(s, f, mid)
    ensures Path(mid, [FetchCache(f), FetchFulfill(f, ok)], AfterAnswer(s, f, ok))
  {
    var t := s.fetches[f];
    var pos: nat := |s.exports[t.session]|;
    var registry := s.registries[t.session];
    var s3 := mid.(fetches := FetchTo(mid.fetches, f, Fulfilling(pos)),
                   registries := s.registries[t.session := Cached(registry, t.swiss, pos)]);
    var end := AfterAnswer(s, f, ok);
    assert end.fetches == FetchTo(s3.fetches, f, FetchDone);
    assert FetchNext(mid, FetchCache(f), s3) && FetchNext(s3, FetchFulfill(f, ok), end);
    PathOf2(mid, FetchCache(f), s3, FetchFulfill(f, ok), end);
  }

  // ----- an uninterrupted connect

  /** A connect call that has just come in, in a valid state. */
  ghost predicate Connectable(s: State, n: nat) {
    ConnectAt(s, n) && s.connects[n].stage == Finding && ObjectsValid(s)
  }

  lemma ConnectableMeans(s: State, n: nat)
    requires Connectable(s, n)
    ensures s.connects[n].kind.Incoming? && s.connects[n].kind.portal < |s.allPortals|
    ensures var id := s.connects[n].id;
            id in s.channels ==> s.channels[id] < |s.allChannels| && s.allChannels[s.channels[id]].id == id
  {
  }

  ghost function AfterConnect(s: State, n: nat): (s': State)
    requires Connectable(s, n)
    ensures n < |s'.connects|
  {
    var t := s.connects[n];
    if t.id !in s.channels then s.(connects := ConnectTo(s.connects, n, Unrecognized))
    else
      var c := s.channels[t.id];
      var outbox := Outbox(t.kind.outbox, s.allPortals[t.kind.portal].remoteKey);
      var cached := s.allChannels[c].exportedAt;
      if t.session in cached then
        s.(connects := ConnectTo(s.connects, n, Connected(c, cached[t.session])),
           allChannels := s.allChannels[c := ConnectPeer(s.allChannels[c], t.session, outbox)])
      else
        var pos: nat := |s.exports[t.session]|;
        s.(connects := ConnectTo(s.connects, n, Connected(c, pos)),
           exports := Export(s.exports, t.session, ChannelRef(c)),
           allChannels :=
             s.allChannels[c := ConnectPeer(Exported(s.allChannels[c], t.session, pos), t.session, outbox)])
  }

  /** The same in the order of the code: the position is found or made first. */
  lemma ConnectState(s: State, n: nat)
    requires Connectable(s, n)
    ensures var t := s.connects[n];
            if t.id !in s.channels then AfterConnect(s, n) == s.(connects := ConnectTo(s.connects, n, Unrecognized))
            else
              var (k, c) := (t.session, s.channels[t.id]);
              && c < |s.allChannels| && t.kind.Incoming? && t.kind.portal < |s.allPortals|
              && var outbox := Outbox(t.kind.outbox, s.allPortals[t.kind.portal].remoteKey);
              var known := k in s.allChannels[c].exportedAt;
              var pos: nat := if known then s.allChannels[c].exportedAt[k] else |s.exports[k]|;
              var channel := if known then s.allChannels[c] else Exported(s.allChannels[c], k, pos);
              AfterConnect(s, n)
              == s.(connects := ConnectTo(s.connects, n, Connected(c, pos)),
                    exports := if known then s.exports else Export(s.exports, k, ChannelRef(c)),
                    allChannels := s.allChannels[c := ConnectPeer(channel, k, outbox)])
  {
    ConnectableMeans(s, n);
    hide ObjectsValid;
  }

  /** What a finished connect call returned. */
  function PositionOf(connects: seq<ConnectTask>, n: nat): Option<nat> {
    if n < |connects| && connects[n].stage.Connected? then Some(connects[n].stage.pos) else None
  }

  lemma ConnectPath(s: State, n: nat) returns (steps: seq<Step>)
    requires Connectable(s, n)
    ensures Path(s, steps, AfterConnect(s, n))
  {
    var (t, end) := (s.connects[n], AfterConnect(s, n));
    if t.id !in s.channels {
      assert PortalNext(s, ConnectFind(n), end);
      PathPlus(s, [], s, ConnectFind(n), end);
      steps := [] + [ConnectFind(n)];
    } else {
      var c := s.channels[t.id];
      if t.session in s.allChannels[c].exportedAt {
        var mid := FoundPath(s, n, c, Installing(c, s.allChannels[c].exportedAt[t.session]));
        InstallStep(s, n, c, mid);
        PathPlus(s, [ConnectFind(n), ConnectLook(n)], mid, ConnectInstall(n), end);
        steps := [ConnectFind(n), ConnectLook(n)] + [ConnectInstall(n)];
      } else {
        var mid := FoundPath(s, n, c, Exporting(c));
        var hooked := HookPath(s, n, c, mid);
        PathConcat(s, [ConnectFind(n), ConnectLook(n)], mid, [ConnectExport(n), ConnectHook(n)], hooked);
        InstallNewStep(s, n, c, hooked);
        steps := [ConnectFind(n), ConnectLook(n)] + [ConnectExport(n), ConnectHook(n)];
        PathPlus(s, steps, hooked, ConnectInstall(n), end);
        steps := steps + [ConnectInstall(n)];
      }
    }
  }

  lemma FindStep(s: State, n: nat, c: nat)
    requires Connectable(s, n) && s.connects[n].id in s.channels && s.channels[s.connects[n].id] == c
    ensures Next(s, ConnectFind(n), s.(connects := ConnectTo(s.connects, n, Looking(c))))
  {
    assert PortalNext(s, ConnectFind(n), s.(connects := ConnectTo(s.connects, n, Looking(c))));
  }

  lemma LookStep(s: State, n: nat, c: nat, stage: ConnectStage)
    requires ConnectAt(s, n) && s.connects[n].stage == Looking(c) && c < |s.allChannels|
    requires var (k, cached) := (s.connects[n].session, s.allChannels[c].exportedAt);
             stage == if k in cached then Installing(c, cached[k]) else Exporting(c)
    ensures Next(s, ConnectLook(n), s.(connects := ConnectTo(s.connects, n, stage)))
  {
    assert PortalNext(s, ConnectLook(n), s.(connects := ConnectTo(s.connects, n, stage)));
  }

  lemma FoundPath(s: State, n: nat, c: nat, stage: ConnectStage) returns (mid: State)
    requires Connectable(s, n) && s.connects[n].id in s.channels && s.channels[s.connects[n].id] == c
    requires var (k, cached) := (s.connects[n].session, s.allChannels[c].exportedAt);
             stage == if k in cached then Installing(c, cached[k]) else Exporting(c)
    ensures mid == s.(connects := ConnectTo(s.connects, n, stage))
    ensures Path(s, [ConnectFind(n), ConnectLook(n)], mid)
  {
    hide Next;
    var s1 := s.(connects := ConnectTo(s.connects, n, Looking(c)));
    mid := s.(connects := ConnectTo(s.connects, n, stage));
    assert mid.connects == ConnectTo(s1.connects, n, stage);
    FindStep(s, n, c);
    LookStep(s1, n, c, stage);
    PathOf2(s, ConnectFind(n), s1, ConnectLook(n), mid);
  }

  lemma InstallStep(s: State, n: nat, c: nat, mid: State)
    requires Connectable(s, n) && s.connects[n].id in s.channels && s.channels[s.connects[n].id] == c
    requires s.connects[n].session in s.allChannels[c].exportedAt
    requires var pos := s.allChannels[c].exportedAt[s.connects[n].session];
             mid == s.(connects := ConnectTo(s.connects, n, Installing(c, pos)))
    ensures Next(mid, ConnectInstall(n), AfterConnect(s, n))
  {
    ConnectableMeans(s, n);
    hide ObjectsValid;
    var end := AfterConnect(s, n);
    assert end.connects == ConnectTo(mid.connects, n, end.connects[n].stage);
    assert PortalNext(mid, ConnectInstall(n), end);
  }

  ghost predicate HookedAt(s: State, n: nat, c: nat, hooked: State)
    requires Connectable(s, n)
  {
    var k := s.connects[n].session;
    var pos: nat := |s.exports[k]|;
    hooked == s.(connects := ConnectTo(s.connects, n, Installing(c, pos)),
                 exports := Export(s.exports, k, ChannelRef(c)),
                 allChannels := Hooked(s.allChannels, ChannelRef(c), k, pos))
  }

  lemma HookPath(s: State, n: nat, c: nat, mid: State) returns (hooked: State)
    requires Connectable(s, n) && s.connects[n].kind.Incoming?
    requires mid == s.(connects := ConnectTo(s.connects, n, Exporting(c)))
    ensures HookedAt(s, n, c, hooked) && Path(mid, [ConnectExport(n), ConnectHook(n)], hooked)
  {
    var k := s.connects[n].session;
    var pos: nat := |s.exports[k]|;
    var s3 := mid.(connects := ConnectTo(mid.connects, n, HookingChannel(c, pos)),
                   exports := Export(s.exports, k, ChannelRef(c)));
    hooked := s3.(connects := ConnectTo(s3.connects, n, Installing(c, pos)),
                  allChannels := Hooked(s.allChannels, ChannelRef(c), k, pos));
    assert hooked.connects == ConnectTo(s.connects, n, Installing(c, pos));
    assert PortalNext(mid, ConnectExport(n), s3) && PortalNext(s3, ConnectHook(n), hooked);
    PathOf2(mid, ConnectExport(n), s3, ConnectHook(n), hooked);
  }

  lemma InstallNewStep(s: State, n: nat, c: nat, hooked: State)
    requires Connectable(s, n) && s.connects[n].id in s.channels && s.channels[s.connects[n].id] == c
    requires s.connects[n].session !in s.allChannels[c].exportedAt && HookedAt(s, n, c, hooked)
    ensures Next(hooked, ConnectInstall(n), AfterConnect(s, n))
  {
    ConnectState(s, n);
    hide ObjectsValid, AfterConnect;
    var end := AfterConnect(s, n);
    assert end.connects == ConnectTo(hooked.connects, n, end.connects[n].stage);
    assert hooked.allChannels[c := end.allChannels[c]] == end.allChannels;
    assert PortalNext(hooked, ConnectInstall(n), end);
  }

  lemma ConnectKeepsPositions(s: State, n: nat)
    requires Connectable(s, n) && PositionsSound(s) && s.connects[n].id in s.channels
    ensures PositionsSound(AfterConnect(s, n)) && TablesGrow(s.exports, AfterConnect(s, n).exports)
  {
    ConnectableMeans(s, n);
    hide ObjectsValid;
    var (s', t, c) := (AfterConnect(s, n), s.connects[n], s.channels[s.connects[n].id]);
    assert TablesGrow(s.exports, s'.exports);
    PositionsGrow(s, s'.exports);
    if t.session in s.allChannels[c].exportedAt {
      assert Denotes(s.exports, t.session, s.allChannels[c].exportedAt[t.session], ChannelRef(c));
    }
  }

  lemma ConnectInstalls(s: State, n: nat)
    requires Connectable(s, n) && s.connects[n].id in s.channels
    ensures var (t, s', c) := (s.connects[n], AfterConnect(s, n), s.channels[s.connects[n].id]);
            && s'.allChannels[c].id == t.id
            && s'.allChannels[c].outboxes
               == s.allChannels[c].outboxes[t.session := Outbox(t.kind.outbox, s.allPortals[t.kind.portal].remoteKey)]
            && |s'.allChannels| == |s.allChannels|
            && (forall d :: 0 <= d < |s.allChannels| && d != c ==> s'.allChannels[d] == s.allChannels[d])
            && s'.allChannels[c].info == s.allChannels[c].info
            && s'.allChannels[c].connected == s.allChannels[c].connected + [s.allPortals[t.kind.portal].remoteKey]
            && s'.connects[n] == t.(stage := s'.connects[n].stage)
            && s'.connects[n].stage.Connected? && s'.connects[n].stage.channel == c
            && s'.allChannels[c].exportedAt == s.allChannels[c].exportedAt[t.session := s'.connects[n].stage.pos]
  {
    ConnectableMeans(s, n);
    hide ObjectsValid;
  }

  /** A finished connect returned a position at which its session calls exactly the channel it named; the
      channel now sends to the caller's outbox under the peer key of the caller's portal, and every other
      channel and outbox is as before. */
  lemma ConnectGivesChannel(s: State, n: nat)
    requires Connectable(s, n) && PositionsSound(s) && s.connects[n].id in s.channels
    ensures var (t, s', c) := (s.connects[n], AfterConnect(s, n), s.channels[s.connects[n].id]);
            && s'.allChannels[c].id == t.id
            && PositionOf(s'.connects, n).Some?
            && Denotes(s'.exports, t.session, PositionOf(s'.connects, n).value, ChannelRef(c))
            && s'.allChannels[c].outboxes
               == s.allChannels[c].outboxes[t.session := Outbox(t.kind.outbox, s.allPortals[t.kind.portal].remoteKey)]
            && s'.allChannels[c].info == s.allChannels[c].info
            && s'.allChannels[c].connected == s.allChannels[c].connected + [s.allPortals[t.kind.portal].remoteKey]
            && s'.allChannels[c].exportedAt
               == s.allChannels[c].exportedAt[t.session := PositionOf(s'.connects, n).value]
            && |s'.allChannels| == |s.allChannels|
            && (forall d :: 0 <= d < |s.allChannels| && d != c ==> s'.allChannels[d] == s.allChannels[d])
    ensures PositionsSound(AfterConnect(s, n)) && TablesGrow(s.exports, AfterConnect(s, n).exports)
  {
    hide AfterConnect;
    ConnectInstalls(s, n);
    ConnectKeepsPositions(s, n);
    assert ConnectSound(AfterConnect(s, n).connects[n], AfterConnect(s, n).exports);
  }

  lemma ConnectRemembers(s: State, n: nat)
    requires Connectable(s, n) && s.connects[n].id in s.channels
    ensures var (s', c) := (AfterConnect(s, n), s.channels[s.connects[n].id]);
            && s'.channels == s.channels && |s'.allChannels| == |s.allChannels|
            && s'.connects[n].stage.Connected?
            && s.connects[n].session in s'.allChannels[c].exportedAt
            && PositionOf(s'.connects, n) == Some(s'.allChannels[c].exportedAt[s.connects[n].session])
  {
    ConnectableMeans(s, n);
    hide ObjectsValid;
  }

  lemma ConnectUsesCached(s: State, m: nat)
    requires Connectable(s, m) && s.connects[m].id in s.channels
    requires s.connects[m].session in s.allChannels[s.channels[s.connects[m].id]].exportedAt
    ensures var (s', cached) := (AfterConnect(s, m), s.allChannels[s.channels[s.connects[m].id]].exportedAt);
            && s'.exports == s.exports
            && PositionOf(s'.connects, m) == Some(cached[s.connects[m].session])
            && forall n: nat :: n != m ==> PositionOf(s'.connects, n) == PositionOf(s.connects, n)
  {
    ConnectableMeans(s, m);
    hide ObjectsValid;
  }

  /** A second connect of a session to the same channel, after the first, exports nothing and returns the same
      position. */
  lemma ConnectTwiceAgrees(s: State, n: nat, m: nat)
    requires Connectable(s, n) && s.connects[n].id in s.channels
    requires Connectable(AfterConnect(s, n), m)
    requires s.connects[n].session == AfterConnect(s, n).connects[m].session
    requires s.connects[n].id == AfterConnect(s, n).connects[m].id
    ensures var (once, twice) := (AfterConnect(s, n), AfterConnect(AfterConnect(s, n), m));
            && twice.exports == once.exports
            && PositionOf(twice.connects, m) == PositionOf(once.connects, n) == PositionOf(twice.connects, n)
  {
    hide AfterConnect;
    ConnectRemembers(s, n);
    ConnectUsesCached(AfterConnect(s, n), m);
  }

  // ----- the theorems about runs hold of the object

  /** Wherever a method leaves a node that a run has led to: what every state of every run satisfies holds there,
      and the run that leads there extends the one before. */
  lemma StretchOfRun(run: Run, steps: seq<Step>, b: State) returns (longer: Run)
    requires IsRun(run) && Path(Last(run.states), steps, b)
    ensures IsRun(longer) && run.states <= longer.states && longer.steps == run.steps + steps
    ensures Last(longer.states) == b
    ensures Valid(b) && Lifecycle.Faithful(b) && QueueOrdered(b) && PositionsSound(b)
    ensures Fetching.Sound(b) && Fetching.OneShot(b) && Promises.Linear(b) && Promises.AuthsSettled(b)
  {
    hide Next, Init;
    longer := PathExtendsRun(run, steps, b);
    var i := |longer.steps|;
    AlwaysValid(longer, i);
    CancelSafe(longer, i);
    AlwaysOrdered(longer, i);
    AlwaysPositionsSound(longer, i);
    Fetching.AlwaysSound(longer, i);
    Fetching.AlwaysOneShot(longer, i);
    Promises.AlwaysLinear(longer, i);
    Promises.AlwaysAuthsSettled(longer, i);
  }
}
