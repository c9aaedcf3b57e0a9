/** A visit, from a new node to a channel: a session opens, fetches the gateway, proves its key, is given a portal, and
    connects to a channel through it. All of it is done with the node's own methods, so what they ask for is met. */
module Visit {
  import opened Foundation
  import opened Paths
  import opened Node
  import opened Growth
  import opened Channels
  import opened ChatNodes

  /** A session comes and is announced. */
  method Announce(node: ChatNode, k: Key) returns (ghost steps: seq<Step>)
    requires k !in node.exports
    modifies node`phases, node`exports, node`registries, node`sent
    ensures Path(old(node.View()), steps, node.View())
    ensures node.sent == old(node.sent) + [SessionStarted(k)] && k in node.phases && node.phases[k] == Announced
    ensures k in node.registries && node.registries[k] == map[] && k in node.exports && node.exports[k] == [Bootstrap]
  {
    hide Next;
    ghost var start := node.View();
    node.ProduceSession(k);
    ghost var produced := node.View();
    node.AnnounceSession(k);
    PathOf2(start, NetProduce(k), produced, NetAnnounce(k), node.View());
    steps := [NetProduce(k), NetAnnounce(k)];
  }

  /** Its loop is spawned, and the manager takes its announcement. */
  method Arrive(node: ChatNode, k: Key) returns (ghost steps: seq<Step>)
    requires node.hand == None && node.received == |node.sent| && k !in node.exports
    modifies node`phases, node`exports, node`registries, node`sent, node`received, node`live, node`returned
    ensures Path(old(node.View()), steps, node.View())
    ensures node.received == |node.sent| && k in node.phases && node.phases[k] == Running
    ensures k in node.registries && node.registries[k] == map[]
    ensures k in node.exports && node.exports[k] == [Bootstrap, FulfillResponseHandler]
  {
    hide Next, Path;
    ghost var start := node.View();
    steps := Announce(node, k);
    ghost var announced := node.View();
    node.SpawnSession(k);
    ghost var spawned := node.View();
    var _, step := node.TakeReturned();
    PathOf2(announced, NetSpawn(k), spawned, step, node.View());
    PathConcat(start, steps, announced, [NetSpawn(k), step], node.View());
    steps := steps + [NetSpawn(k), step];
  }

  /** The session asks for the gateway, which is not in its registry. */
  method AskGateway(node: ChatNode, k: Key) returns (f: nat, ghost steps: seq<Step>)
    requires k in node.phases && node.phases[k] == Running && k in node.exports
    requires k in node.registries && GATEWAY_SWISS !in node.registries[k]
    modifies node`fetches, node`sent
    ensures Path(old(node.View()), steps, node.View()) && node.sent == old(node.sent) + [Fetch(k, GATEWAY_SWISS, f)]
    ensures f < |node.fetches| && node.fetches[f] == FetchTask(k, GATEWAY_SWISS, Waiting)
  {
    hide Next, Path;
    ghost var start := node.View();
    f := |node.fetches|;
    node.SpawnFetch(k, GATEWAY_SWISS);
    ghost var spawned := node.View();
    var _, step := node.BeginFetch(f);
    PathOf2(start, RecvFetch(k, GATEWAY_SWISS), spawned, step, node.View());
    steps := [RecvFetch(k, GATEWAY_SWISS), step];
  }

  /** The session fetches the gateway: it is asked for, answered and exported. */
  method FetchGateway(node: ChatNode, k: Key) returns (at: nat, ghost steps: seq<Step>)
    requires node.hand == None && node.received == |node.sent|
    requires k in node.phases && node.phases[k] == Running && k in node.exports
    requires k in node.registries && GATEWAY_SWISS !in node.registries[k]
    modifies node`fetches, node`sent, node`received, node`exports, node`registries, node`allChannels, node`log
    ensures Path(old(node.View()), steps, node.View())
    ensures node.received == |node.sent|
    ensures node.exports == Export(old(node.exports), k, Gateway) && Denotes(node.exports, k, at, Gateway)
    ensures node.allChannels == old(node.allChannels)
  {
    hide Next, Path;
    ghost var start := node.View();
    var f;
    f, steps := AskGateway(node, k);
    ghost var asked := node.View();
    node.AnswerFetch();
    ghost var answered := node.View();
    PathPlus(start, steps, asked, RecvFetchRequest, answered);
    steps := steps + [RecvFetchRequest];
    at := |node.exports[k]|;
    var _, more := node.FulfillFetch(f);
    PathConcat(start, steps, answered, more, node.View());
    steps := steps + more;
  }

  /** Somebody signs something, and the session brings it to the gateway. */
  method Knock(node: ChatNode, k: Key, at: nat, entry: Signed) returns (a: nat, ghost steps: seq<Step>)
    requires Denotes(node.exports, k, at, Gateway)
    modifies node`ledger, node`auths
    ensures Path(old(node.View()), steps, node.View()) && entry in node.ledger
    ensures a < |node.auths| && node.auths[a] == AuthCall(k, entry.key, entry.message, entry.signature, Checking)
  {
    hide Next, Path;
    ghost var start := node.View();
    node.Sign(entry);
    ghost var signed := node.View();
    a := node.CallAuthenticate(k, at, entry);
    ghost var call := CallAuthenticate(k, at, entry.key, entry.message, entry.signature);
    PathOf2(start, Sign(entry), signed, call, node.View());
    steps := [Sign(entry), call];
  }

  /** The session authenticates with a signature that was made: it is given the signer's portal. */
  method ProveKey(node: ChatNode, k: Key, at: nat, entry: Signed) returns (portalAt: nat, ghost steps: seq<Step>)
    requires node.hand == None && node.received == |node.sent| && Denotes(node.exports, k, at, Gateway)
    modifies node`ledger, node`auths, node`sent, node`log, node`received, node`portals, node`allPortals, node`exports,
             node`hand
    ensures Path(old(node.View()), steps, node.View())
    ensures entry.key in node.portals && Denotes(node.exports, k, portalAt, PortalRef(node.portals[entry.key]))
  {
    hide Next, Path;
    ghost var start := node.View();
    var a;
    a, steps := Knock(node, k, at, entry);
    ghost var called := node.View();
    var verified, step := node.Authenticate(a);
    ghost var queued := node.View();
    portalAt := |node.exports[k]|;
    node.ExportPortal();
    ghost var granted := node.View();
    PathOf2(called, step, queued, RecvPortalRequest, granted);
    PathConcat(start, steps, called, [step, RecvPortalRequest], granted);
    steps := steps + [step, RecvPortalRequest];
    var ok := node.FulfillPortalRequest();
    PathPlus(start, steps, granted, MgrFulfill(ok), node.View());
    steps := steps + [MgrFulfill(ok)];
  }

  /** The session connects to a registered channel: it is given a position of the channel, and the channel has its
      outbox, under the key that it proved. */
  method Join(node: ChatNode, k: Key, at: nat, id: Uuid, outbox: nat) returns (position: nat, ghost steps: seq<Step>)
    requires Valid(node.View()) && PositionsSound(node.View())
    requires k in node.exports && at < |node.exports[k]| && node.exports[k][at].PortalRef? && id in node.channels
    modifies node`connects, node`exports, node`allChannels
    ensures Path(old(node.View()), steps, node.View())
    ensures var c, portal := node.channels[id], old(node.exports)[k][at].portal;
            && Denotes(node.exports, k, position, ChannelRef(c)) && c < |node.allChannels|
            && portal < |node.allPortals| && k in node.allChannels[c].outboxes
            && node.allChannels[c].outboxes[k] == Outbox(outbox, node.allPortals[portal].remoteKey)
  {
    hide Next, Valid, PositionsSound, AfterConnect;
    ghost var start := node.View();
    var n := node.CallConnect(k, at, id, outbox);
    ghost var called := node.View();
    PathPlus(start, [], start, CallConnect(k, at, id, outbox), called);
    CalledConnectable(start, k, at, id, outbox, called);
    ConnectGivesChannel(called, n);
    var got, more := node.Connect(n);
    position := got.value;
    PathConcat(start, [] + [CallConnect(k, at, id, outbox)], called, more, node.View());
    steps := [] + [CallConnect(k, at, id, outbox)] + more;
  }

  /** A new node with one registered channel. */
  method OpenHouse(id: Uuid, info: ChannelInfo) returns (node: ChatNode, ghost run: Run)
    ensures fresh(node) && IsRun(run) && Last(run.states) == node.View()
    ensures node.hand == None && node.received == |node.sent| && node.exports == map[] && id in node.channels
  {
    hide Next, Init;
    node := new ChatNode();
    run := Run([node.View()], []);
    var c := node.CreateChannel(id, info);
    run := Continued(run, CreateChannel(id, info), node.View());
    var _ := node.RegisterChannel(c);
    run := Continued(run, RegisterChannel(c), node.View());
  }

  /** A session comes and is given the portal of the key that it proves. */
  method Enter(node: ChatNode, k: Key, entry: Signed) returns (portalAt: nat, ghost steps: seq<Step>)
    requires node.hand == None && node.received == |node.sent| && k !in node.exports
    modifies node`phases, node`exports, node`registries, node`sent, node`received, node`live, node`returned,
             node`fetches, node`allChannels, node`log, node`ledger, node`auths, node`portals, node`allPortals, node`hand
    ensures Path(old(node.View()), steps, node.View())
    ensures entry.key in node.portals && Denotes(node.exports, k, portalAt, PortalRef(node.portals[entry.key]))
  {
    hide Next;
    ghost var start := node.View();
    steps := Arrive(node, k);
    ghost var arrived := node.View();
    var at, fetched := FetchGateway(node, k);
    ghost var ready := node.View();
    PathConcat(start, steps, arrived, fetched, ready);
    ghost var proved;
    portalAt, proved := ProveKey(node, k, at, entry);
    PathConcat(start, steps + fetched, ready, proved, node.View());
    steps := steps + fetched + proved;
  }

  /** From a new node to its first guest. What happens is a run, so all that is proved of runs holds of the node. */
  method FirstGuest(k: Key, entry: Signed, id: Uuid, info: ChannelInfo, outbox: nat)
    returns (node: ChatNode, position: nat, ghost run: Run)
    ensures fresh(node) && IsRun(run) && Last(run.states) == node.View()
    ensures id in node.channels && var c := node.channels[id];
            && Denotes(node.exports, k, position, ChannelRef(c)) && c < |node.allChannels|
            && k in node.allChannels[c].outboxes && node.allChannels[c].outboxes[k] == Outbox(outbox, entry.key)
  {
    hide Next, Init, Valid, PositionsSound, IsRun, Path;
    node, run := OpenHouse(id, info);
    var portalAt, entered := Enter(node, k, entry);
    run := StretchOfRun(run, entered, node.View());
    PortalOfKey(node.View(), entry.key);
    ghost var joined;
    position, joined := Join(node, k, portalAt, id, outbox);
    run := StretchOfRun(run, joined, node.View());
  }

  lemma Continued(run: Run, step: Step, s: State) returns (longer: Run)
    requires IsRun(run) && Next(Last(run.states), step, s)
    ensures IsRun(longer) && Last(longer.states) == s
  {
    hide Next, Init;
    longer := Run(run.states + [s], run.steps + [step]);
  }

  lemma PortalOfKey(s: State, k: Key)
    requires Valid(s) && k in s.portals
    ensures s.portals[k] < |s.allPortals| && s.allPortals[s.portals[k]].remoteKey == k
  {
  }

  lemma CalledConnectable(s: State, k: Key, at: nat, id: Uuid, outbox: nat, s': State)
    requires Valid(s) && PositionsSound(s) && Next(s, CallConnect(k, at, id, outbox), s')
    ensures Connectable(s', |s.connects|) && PositionsSound(s')
  {
    StepKeepsValid(s, CallConnect(k, at, id, outbox), s');
    assert PortalNext(s, CallConnect(k, at, id, outbox), s');
    PortalKeepsPositions(s, CallConnect(k, at, id, outbox), s');
  }
}
