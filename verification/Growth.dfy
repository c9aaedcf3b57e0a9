/** What every step of the node only ever extends, and the structure every reachable state has. */
module Growth {
  import opened Foundation
  import opened Node

  // ----- what only grows

  ghost predicate TablesGrow(e: Tables, e': Tables) {
    forall k :: k in e ==> k in e' && e[k] <= e'[k]
  }

  ghost predicate FetchesGrow(t: seq<FetchTask>, t': seq<FetchTask>) {
    |t| <= |t'| && forall i :: 0 <= i < |t| ==> t[i].session == t'[i].session && t[i].swiss == t'[i].swiss
  }

  ghost predicate AuthsGrow(t: seq<AuthCall>, t': seq<AuthCall>) {
    |t| <= |t'| && forall i :: 0 <= i < |t| ==> t'[i] == t[i].(stage := t'[i].stage)
  }

  ghost predicate ConnectsGrow(t: seq<ConnectTask>, t': seq<ConnectTask>) {
    |t| <= |t'| && forall i :: 0 <= i < |t| ==> t'[i] == t[i].(stage := t'[i].stage)
  }

  /** A channel keeps its id and its info, and never forgets where it is exported or whom it sends to. */
  ghost predicate ChannelsGrow(t: seq<Channel>, t': seq<Channel>) {
    |t| <= |t'| && forall i :: 0 <= i < |t| ==>
      && t[i].id == t'[i].id && t[i].info == t'[i].info
      && t[i].exportedAt.Keys <= t'[i].exportedAt.Keys && t[i].outboxes.Keys <= t'[i].outboxes.Keys
  }

  ghost predicate PortalsGrow(p: map<Key, nat>, p': map<Key, nat>) {
    forall k :: k in p ==> k in p' && p'[k] == p[k]
  }

  ghost predicate Grows(s: State, s': State) {
    && TablesGrow(s.exports, s'.exports)
    && FetchesGrow(s.fetches, s'.fetches)
    && AuthsGrow(s.auths, s'.auths)
    && ConnectsGrow(s.connects, s'.connects)
    && ChannelsGrow(s.allChannels, s'.allChannels)
    && PortalsGrow(s.portals, s'.portals)
    && s.channels.Keys <= s'.channels.Keys
    && s.dataChannels == s'.dataChannels
    && s.sent <= s'.sent
    && s.received <= s'.received
    && s.log.settled <= s'.log.settled
    && s.allPortals <= s'.allPortals
    && s.ledger <= s'.ledger
  }

  // ----- structure

  ghost predicate FetchesValid(fetches: seq<FetchTask>, phases: map<Key, Phase>) {
    forall f :: 0 <= f < |fetches| ==> fetches[f].session in phases && phases[fetches[f].session] in {Running, Ended}
  }

  ghost predicate ConnectValid(t: ConnectTask, portals: nat, channels: nat) {
    && (t.kind.Incoming? ==> t.kind.portal < portals)
    && (t.stage.Finding? || t.stage.Looking? || t.stage.Installing? ==> t.kind.Incoming?)
    && (t.stage.Finding? || t.stage.Unrecognized? || t.stage.channel < channels)
  }

  ghost predicate ConnectsValid(connects: seq<ConnectTask>, sessions: set<Key>, portals: nat, channels: nat) {
    forall n :: 0 <= n < |connects| ==> connects[n].session in sessions && ConnectValid(connects[n], portals, channels)
  }

  ghost predicate ObjectValid(target: Object, portals: nat, channels: nat) {
    && (target.PortalRef? ==> target.portal < portals)
    && (target.ChannelRef? ==> target.channel < channels)
  }

  ghost predicate ExportsValid(exports: Tables, portals: nat, channels: nat) {
    forall k, p :: k in exports && 0 <= p < |exports[k]| ==> ObjectValid(exports[k][p], portals, channels)
  }

  ghost predicate AnswersValid(fetches: seq<FetchTask>, channels: nat) {
    forall f :: 0 <= f < |fetches| && fetches[f].stage.Answered? && fetches[f].stage.answer.Some? ==>
      ObjectValid(fetches[f].stage.answer.value, 0, channels)
  }

  ghost predicate ChannelsValid(registered: map<Uuid, nat>, allChannels: seq<Channel>) {
    forall id :: id in registered ==> registered[id] < |allChannels| && allChannels[registered[id]].id == id
  }

  ghost predicate DataChannelsValid(dataChannels: map<Uuid, nat>, channels: nat) {
    forall id :: id in dataChannels ==> dataChannels[id] < channels
  }

  ghost predicate EventValid(event: NetworkEvent, auths: seq<AuthCall>, fetches: seq<FetchTask>,
                             phases: map<Key, Phase>)
  {
    match event
    case PortalRequest(k, peer, a) =>
      a < |auths| && auths[a].session == k && auths[a].peerKey == peer && auths[a].stage == Requested
    case Fetch(k, swiss, f) =>
      f < |fetches| && fetches[f].session == k && fetches[f].swiss == swiss && fetches[f].stage != Asking
    case SessionStarted(k) => k in phases && phases[k] != Produced
    case SessionAborted(k, _) => k in phases && phases[k] == Ended
    case TaskFinished(_) => true
  }

  /** Every event on the queue names a session and a call or task that exist and agree with it. */
  ghost predicate QueueValid(sent: seq<NetworkEvent>, auths: seq<AuthCall>, fetches: seq<FetchTask>,
                             phases: map<Key, Phase>)
  {
    forall i :: 0 <= i < |sent| ==> EventValid(sent[i], auths, fetches, phases)
  }

  ghost predicate AuthsValid(auths: seq<AuthCall>, sessions: set<Key>) {
    forall a :: 0 <= a < |auths| ==> auths[a].session in sessions
  }

  /** At most one portal per peer key, and it carries that key. */
  ghost predicate PortalsValid(portals: map<Key, nat>, allPortals: seq<Portal>) {
    && (forall k :: k in portals ==> portals[k] < |allPortals| && allPortals[portals[k]].remoteKey == k)
    && (forall p :: 0 <= p < |allPortals| ==>
          allPortals[p].remoteKey in portals && portals[allPortals[p].remoteKey] == p)
  }

  ghost predicate TasksValid(s: State) {
    && s.phases.Keys == s.exports.Keys == s.registries.Keys
    && s.received <= |s.sent|
    && FetchesValid(s.fetches, s.phases)
    && AuthsValid(s.auths, s.exports.Keys)
    && QueueValid(s.sent, s.auths, s.fetches, s.phases)
  }

  ghost predicate ObjectsValid(s: State) {
    && ConnectsValid(s.connects, s.exports.Keys, |s.allPortals|, |s.allChannels|)
    && ExportsValid(s.exports, |s.allPortals|, |s.allChannels|)
    && AnswersValid(s.fetches, |s.allChannels|)
    && ChannelsValid(s.channels, s.allChannels)
    && DataChannelsValid(s.dataChannels, |s.allChannels|)
    && PortalsValid(s.portals, s.allPortals)
  }

  ghost predicate Valid(s: State) {
    TasksValid(s) && ObjectsValid(s)
  }

  // ----- what each kind of step leaves alone

  lemma NetFrame(s: State, step: Step, s': State)
    requires NetNext(s, step, s')
    ensures s'.received == s.received && s'.hand == s.hand && s'.live == s.live && s'.portals == s.portals
    ensures s'.allPortals == s.allPortals && s'.channels == s.channels
    ensures s'.dataChannels == s.dataChannels && s'.allChannels == s.allChannels
    ensures s'.returned == s.returned && s'.fetches == s.fetches && s'.auths == s.auths && s'.connects == s.connects
    ensures s'.lists == s.lists && s'.log == s.log && s'.ledger == s.ledger
  {
  }

  lemma SessionFrame(s: State, step: Step, s': State)
    requires SessionNext(s, step, s')
    ensures s'.exports == s.exports && s'.registries == s.registries && s'.received == s.received && s'.hand == s.hand
    ensures s'.live == s.live && s'.portals == s.portals && s'.allPortals == s.allPortals && s'.channels == s.channels
    ensures s'.dataChannels == s.dataChannels && s'.allChannels == s.allChannels
    ensures s'.returned == s.returned && s'.auths == s.auths
    ensures s'.connects == s.connects && s'.lists == s.lists && s'.log == s.log && s'.ledger == s.ledger
  {
  }

  lemma FetchFrame(s: State, step: Step, s': State)
    requires FetchNext(s, step, s')
    ensures s'.phases == s.phases && s'.received == s.received && s'.hand == s.hand && s'.live == s.live
    ensures s'.portals == s.portals && s'.allPortals == s.allPortals
    ensures s'.channels == s.channels && s'.dataChannels == s.dataChannels
    ensures s'.returned == s.returned && s'.auths == s.auths && s'.connects == s.connects && s'.lists == s.lists
    ensures s'.ledger == s.ledger
  {
  }

  lemma GatewayFrame(s: State, step: Step, s': State)
    requires GatewayNext(s, step, s')
    ensures s'.phases == s.phases && s'.exports == s.exports
    ensures s'.registries == s.registries && s'.received == s.received
    ensures s'.hand == s.hand && s'.live == s.live && s'.portals == s.portals && s'.allPortals == s.allPortals
    ensures s'.channels == s.channels && s'.dataChannels == s.dataChannels
    ensures s'.allChannels == s.allChannels && s'.returned == s.returned
    ensures s'.fetches == s.fetches && s'.connects == s.connects && s'.lists == s.lists
  {
  }

  lemma ManagerFrame(s: State, step: Step, s': State)
    requires ManagerNext(s, step, s')
    ensures s'.phases == s.phases && s'.registries == s.registries
    ensures s'.channels == s.channels && s'.dataChannels == s.dataChannels
    ensures s'.allChannels == s.allChannels && s'.auths == s.auths && s'.connects == s.connects && s'.lists == s.lists
    ensures s'.ledger == s.ledger
  {
  }

  lemma ChannelFrame(s: State, step: Step, s': State)
    requires ChannelNext(s, step, s')
    ensures s'.phases == s.phases && s'.exports == s.exports && s'.registries == s.registries && s'.sent == s.sent
    ensures s'.received == s.received && s'.hand == s.hand && s'.live == s.live && s'.portals == s.portals
    ensures s'.allPortals == s.allPortals && s'.dataChannels == s.dataChannels
    ensures s'.returned == s.returned && s'.fetches == s.fetches
    ensures s'.auths == s.auths && s'.connects == s.connects && s'.log == s.log && s'.ledger == s.ledger
  {
  }

  lemma PortalFrame(s: State, step: Step, s': State)
    requires PortalNext(s, step, s')
    ensures s'.phases == s.phases && s'.registries == s.registries && s'.sent == s.sent && s'.received == s.received
    ensures s'.hand == s.hand && s'.live == s.live && s'.portals == s.portals && s'.allPortals == s.allPortals
    ensures s'.channels == s.channels && s'.dataChannels == s.dataChannels
    ensures s'.returned == s.returned && s'.fetches == s.fetches
    ensures s'.auths == s.auths && s'.lists == s.lists && s'.log == s.log && s'.ledger == s.ledger
  {
  }

  // ----- what each kind of step adds

  ghost predicate Appends<T>(xs: seq<T>, ys: seq<T>) {
    xs <= ys && |ys| <= |xs| + 1
  }

  lemma NetAdds(s: State, step: Step, s': State)
    requires NetNext(s, step, s')
    ensures Appends(s.sent, s'.sent) && (|s'.sent| > |s.sent| ==> s'.sent[|s.sent|].SessionStarted?)
    ensures forall k :: k in s'.registries ==>
              s'.registries[k] == map[] || (k in s.registries && s'.registries[k] == s.registries[k])
  {
  }

  lemma SessionAdds(s: State, step: Step, s': State)
    requires SessionNext(s, step, s')
    ensures Appends(s.sent, s'.sent) && (|s'.sent| > |s.sent| ==> s'.sent[|s.sent|].SessionAborted?)
    ensures Appends(s.fetches, s'.fetches) && (|s'.fetches| > |s.fetches| ==> s'.fetches[|s.fetches|].stage == Asking)
  {
  }

  lemma FetchSettles(s: State, step: Step, s': State)
    requires FetchNext(s, step, s')
    ensures Appends(s.log.settled, s'.log.settled)
    ensures |s'.log.settled| > |s.log.settled| ==> s'.log.settled[|s.log.settled|].promise.FetchPromise?
  {
    if !step.FetchFulfill? && !step.FetchBreak? && !step.FetchAbort? {
      assert s'.log == s.log;
    }
  }

  lemma FetchAsks(s: State, step: Step, s': State)
    requires FetchNext(s, step, s')
    ensures s'.sent == if step.FetchMiss? then s.sent + [Fetch(s.fetches[step.fetch].session,
                                                              s.fetches[step.fetch].swiss, step.fetch)] else s.sent
  {
  }

  /** A step of a fetch task moves that task on, and may queue its request. */
  lemma FetchMovesOne(s: State, step: Step, s': State) returns (f: nat)
    requires FetchNext(s, step, s')
    ensures f < |s.fetches| == |s'.fetches| && !s'.fetches[f].stage.Asking? && !s'.fetches[f].stage.Answered?
    ensures s'.fetches == FetchTo(s.fetches, f, s'.fetches[f].stage)
    ensures s'.sent == s.sent || s'.sent == s.sent + [Fetch(s.fetches[f].session, s.fetches[f].swiss, f)]
  {
    f := step.fetch;
    FetchAsks(s, step, s');
  }

  lemma FetchAdds(s: State, step: Step, s': State)
    requires FetchNext(s, step, s')
    ensures Appends(s.sent, s'.sent) && (|s'.sent| > |s.sent| ==> s'.sent[|s.sent|].Fetch?)
    ensures Appends(s.log.settled, s'.log.settled)
    ensures |s'.log.settled| > |s.log.settled| ==> s'.log.settled[|s.log.settled|].promise.FetchPromise?
  {
    FetchSettles(s, step, s');
    FetchAsks(s, step, s');
    hide FetchNext;
  }

  lemma FetchKeepsKeys(s: State, step: Step, s': State)
    requires FetchNext(s, step, s')
    ensures s'.exports.Keys == s.exports.Keys && s'.registries.Keys == s.registries.Keys
  {
    if step.FetchCache? {
      assert s.fetches[step.fetch].session in s.registries;
    } else {
      assert s'.registries == s.registries;
    }
  }

  lemma GatewayAdds(s: State, step: Step, s': State)
    requires GatewayNext(s, step, s')
    ensures Appends(s.sent, s'.sent) && (|s'.sent| > |s.sent| ==> s'.sent[|s.sent|].PortalRequest?)
    ensures Appends(s.log.settled, s'.log.settled)
    ensures |s'.log.settled| > |s.log.settled| ==> s'.log.settled[|s.log.settled|].promise.AuthPromise?
  {
  }

  lemma ManagerAdds(s: State, step: Step, s': State)
    requires ManagerNext(s, step, s')
    ensures Appends(s.sent, s'.sent) && (|s'.sent| > |s.sent| ==> s'.sent[|s.sent|].TaskFinished?)
  {
  }

  /** Which kinds of step can change which part of the state. */
  lemma StepFrame(s: State, step: Step, s': State)
    requires Next(s, step, s')
    ensures NetNext(s, step, s') || SessionNext(s, step, s') || FetchNext(s, step, s') || GatewayNext(s, step, s')
            || ManagerNext(s, step, s') || s'.sent == s.sent
    ensures ManagerNext(s, step, s') ||
            (s'.received == s.received && s'.returned == s.returned && s'.live == s.live && s'.hand == s.hand
             && s'.portals == s.portals && s'.allPortals == s.allPortals)
    ensures FetchNext(s, step, s') || GatewayNext(s, step, s') || ManagerNext(s, step, s') || s'.log == s.log
    ensures NetNext(s, step, s') || FetchNext(s, step, s') || ManagerNext(s, step, s') || PortalNext(s, step, s')
            || s'.exports == s.exports
    ensures FetchNext(s, step, s') || ChannelNext(s, step, s') || PortalNext(s, step, s')
            || s'.allChannels == s.allChannels
    ensures PortalNext(s, step, s') || s'.connects == s.connects
    ensures GatewayNext(s, step, s') || (s'.auths == s.auths && s'.ledger == s.ledger)
    ensures ChannelNext(s, step, s') || (s'.channels == s.channels && s'.lists == s.lists)
    ensures s'.dataChannels == s.dataChannels
  {
    hide NetNext, SessionNext, FetchNext, GatewayNext, ManagerNext, ChannelNext, PortalNext;
    if NetNext(s, step, s') {
      NetFrame(s, step, s');
    } else if SessionNext(s, step, s') {
      SessionFrame(s, step, s');
    } else if FetchNext(s, step, s') {
      FetchFrame(s, step, s');
    } else if GatewayNext(s, step, s') {
      GatewayFrame(s, step, s');
    } else if ManagerNext(s, step, s') {
      ManagerFrame(s, step, s');
    } else if ChannelNext(s, step, s') {
      ChannelFrame(s, step, s');
    } else if PortalNext(s, step, s') {
      PortalFrame(s, step, s');
    }
  }

  // ----- every step

  lemma NetGrows(s: State, step: Step, s': State)
    requires NetNext(s, step, s')
    ensures Grows(s, s')
  {
  }

  lemma SessionGrows(s: State, step: Step, s': State)
    requires SessionNext(s, step, s')
    ensures Grows(s, s')
  {
  }

  lemma FetchGrowsTasks(s: State, step: Step, s': State)
    requires FetchNext(s, step, s')
    ensures FetchesGrow(s.fetches, s'.fetches) && s.sent <= s'.sent && s.log.settled <= s'.log.settled
  {
    hide FetchNext;
    var f := FetchMovesOne(s, step, s');
    FetchSettles(s, step, s');
  }

  /** A step of a fetch task changes nothing of a channel but where it is exported. */
  lemma FetchKeepsOutboxes(s: State, step: Step, s': State)
    requires FetchNext(s, step, s')
    ensures |s'.allChannels| == |s.allChannels|
    ensures forall c :: 0 <= c < |s.allChannels| ==>
              && s'.allChannels[c] == s.allChannels[c].(exportedAt := s'.allChannels[c].exportedAt)
              && s.allChannels[c].exportedAt.Keys <= s'.allChannels[c].exportedAt.Keys
  {
    if !step.FetchHook? {
      assert s'.allChannels == s.allChannels;
    }
  }

  lemma FetchGrowsObjects(s: State, step: Step, s': State)
    requires FetchNext(s, step, s')
    ensures TablesGrow(s.exports, s'.exports) && ChannelsGrow(s.allChannels, s'.allChannels)
    ensures |s'.allChannels| == |s.allChannels|
  {
    FetchKeepsOutboxes(s, step, s');
    if !step.FetchExport? {
      assert s'.exports == s.exports;
    }
  }

  lemma FetchGrows(s: State, step: Step, s': State)
    requires FetchNext(s, step, s')
    ensures Grows(s, s')
  {
    hide FetchNext, FetchesGrow, TablesGrow, ChannelsGrow;
    FetchFrame(s, step, s');
    FetchGrowsTasks(s, step, s');
    FetchGrowsObjects(s, step, s');
  }

  lemma GatewayGrows(s: State, step: Step, s': State)
    requires GatewayNext(s, step, s')
    ensures Grows(s, s')
  {
  }

  lemma ManagerGrows(s: State, step: Step, s': State)
    requires ManagerNext(s, step, s')
    ensures Grows(s, s')
  {
  }

  lemma ChannelGrows(s: State, step: Step, s': State)
    requires ChannelNext(s, step, s')
    ensures Grows(s, s')
  {
  }

  lemma PortalGrowsObjects(s: State, step: Step, s': State)
    requires PortalNext(s, step, s')
    ensures TablesGrow(s.exports, s'.exports) && ChannelsGrow(s.allChannels, s'.allChannels)
  {
    if !step.ConnectExport? {
      assert s'.exports == s.exports;
    }
  }

  lemma PortalGrowsTasks(s: State, step: Step, s': State)
    requires PortalNext(s, step, s')
    ensures ConnectsGrow(s.connects, s'.connects)
  {
  }

  lemma PortalGrows(s: State, step: Step, s': State)
    requires PortalNext(s, step, s')
    ensures Grows(s, s')
  {
    hide PortalNext, TablesGrow, ChannelsGrow, ConnectsGrow;
    PortalFrame(s, step, s');
    PortalGrowsObjects(s, step, s');
    PortalGrowsTasks(s, step, s');
  }

  lemma StepGrows(s: State, step: Step, s': State)
    requires Next(s, step, s')
    ensures Grows(s, s')
  {
    hide NetNext, SessionNext, FetchNext, GatewayNext, ManagerNext, ChannelNext, PortalNext;
    if NetNext(s, step, s') {
      NetGrows(s, step, s');
    } else if SessionNext(s, step, s') {
      SessionGrows(s, step, s');
    } else if FetchNext(s, step, s') {
      FetchGrows(s, step, s');
    } else if GatewayNext(s, step, s') {
      GatewayGrows(s, step, s');
    } else if ManagerNext(s, step, s') {
      ManagerGrows(s, step, s');
    } else if ChannelNext(s, step, s') {
      ChannelGrows(s, step, s');
    } else if PortalNext(s, step, s') {
      PortalGrows(s, step, s');
    }
  }

  lemma NetKeepsQueueValid(s: State, step: Step, s': State)
    requires QueueValid(s.sent, s.auths, s.fetches, s.phases) && s.phases.Keys == s.exports.Keys
    requires NetNext(s, step, s')
    ensures QueueValid(s'.sent, s'.auths, s'.fetches, s'.phases)
  {
  }

  lemma NetKeepsTasksValid(s: State, step: Step, s': State)
    requires TasksValid(s) && NetNext(s, step, s')
    ensures TasksValid(s')
  {
    hide QueueValid;
    NetKeepsQueueValid(s, step, s');
  }

  lemma NetKeepsObjectsValid(s: State, step: Step, s': State)
    requires ObjectsValid(s) && NetNext(s, step, s')
    ensures ObjectsValid(s')
  {
  }

  lemma SessionKeepsQueueValid(s: State, step: Step, s': State)
    requires QueueValid(s.sent, s.auths, s.fetches, s.phases) && SessionNext(s, step, s')
    ensures QueueValid(s'.sent, s'.auths, s'.fetches, s'.phases)
  {
  }

  lemma SessionKeepsTasksValid(s: State, step: Step, s': State)
    requires TasksValid(s) && SessionNext(s, step, s')
    ensures TasksValid(s')
  {
    hide QueueValid;
    SessionKeepsQueueValid(s, step, s');
  }

  lemma SessionKeepsObjectsValid(s: State, step: Step, s': State)
    requires ObjectsValid(s) && SessionNext(s, step, s')
    ensures ObjectsValid(s')
  {
  }

  lemma FetchKeepsFetchesValid(s: State, step: Step, s': State)
    requires TasksValid(s) && FetchNext(s, step, s')
    ensures FetchesValid(s'.fetches, s'.phases) && s'.exports.Keys == s.exports.Keys
            && s'.registries.Keys == s.registries.Keys
  {
    var f := FetchMovesOne(s, step, s');
    FetchKeepsKeys(s, step, s');
    hide FetchNext;
    FetchFrame(s, step, s');
  }

  lemma FetchKeepsQueueValid(s: State, step: Step, s': State)
    requires TasksValid(s) && FetchNext(s, step, s')
    ensures QueueValid(s'.sent, s'.auths, s'.fetches, s'.phases)
  {
    hide FetchNext;
    var f := FetchMovesOne(s, step, s');
    FetchFrame(s, step, s');
  }

  lemma FetchKeepsTasksValid(s: State, step: Step, s': State)
    requires TasksValid(s) && FetchNext(s, step, s')
    ensures TasksValid(s')
  {
    hide FetchNext, FetchesValid, QueueValid;
    FetchFrame(s, step, s');
    FetchGrowsTasks(s, step, s');
    FetchKeepsFetchesValid(s, step, s');
    FetchKeepsQueueValid(s, step, s');
  }

  lemma FetchKeepsExportsValid(s: State, step: Step, s': State)
    requires ObjectsValid(s) && FetchNext(s, step, s')
    ensures ExportsValid(s'.exports, |s.allPortals|, |s.allChannels|)
  {
    hide ChannelsValid, PortalsValid, ConnectsValid;
    if !step.FetchExport? {
      assert s'.exports == s.exports;
    }
  }

  lemma FetchKeepsAnswersValid(s: State, step: Step, s': State)
    requires AnswersValid(s.fetches, |s.allChannels|) && FetchNext(s, step, s')
    ensures AnswersValid(s'.fetches, |s.allChannels|)
  {
    hide FetchNext;
    var f := FetchMovesOne(s, step, s');
  }

  lemma FetchKeepsChannelsValid(s: State, step: Step, s': State)
    requires ChannelsValid(s.channels, s.allChannels) && FetchNext(s, step, s')
    ensures ChannelsValid(s'.channels, s'.allChannels) && |s'.allChannels| == |s.allChannels|
  {
    hide FetchNext;
    FetchFrame(s, step, s');
    FetchGrowsObjects(s, step, s');
  }

  lemma FetchKeepsObjectsValid(s: State, step: Step, s': State)
    requires ObjectsValid(s) && FetchNext(s, step, s')
    ensures ObjectsValid(s')
  {
    hide FetchNext, ExportsValid, AnswersValid, ChannelsValid, PortalsValid;
    FetchFrame(s, step, s');
    FetchKeepsKeys(s, step, s');
    FetchKeepsExportsValid(s, step, s');
    FetchKeepsAnswersValid(s, step, s');
    FetchKeepsChannelsValid(s, step, s');
  }

  lemma GatewayKeepsTasksValid(s: State, step: Step, s': State)
    requires TasksValid(s) && GatewayNext(s, step, s')
    ensures TasksValid(s')
  {
  }

  lemma GatewayKeepsObjectsValid(s: State, step: Step, s': State)
    requires ObjectsValid(s) && GatewayNext(s, step, s')
    ensures ObjectsValid(s')
  {
  }

  lemma ManagerKeepsFetches(s: State, step: Step, s': State)
    requires ManagerNext(s, step, s')
    ensures FetchesGrow(s.fetches, s'.fetches) && |s'.fetches| == |s.fetches|
    ensures forall f :: 0 <= f < |s.fetches| && s.fetches[f].stage != Asking ==> s'.fetches[f].stage != Asking
  {
    if !step.RecvFetchRequest? {
      assert s'.fetches == s.fetches;
    }
  }

  lemma ManagerKeepsQueue(s: State, step: Step, s': State)
    requires s.received <= |s.sent| && ManagerNext(s, step, s')
    ensures s'.received <= |s'.sent| && s'.exports.Keys == s.exports.Keys
  {
  }

  lemma ManagerKeepsTasksValid(s: State, step: Step, s': State)
    requires TasksValid(s) && ManagerNext(s, step, s')
    ensures TasksValid(s')
  {
    hide ManagerNext;
    ManagerFrame(s, step, s');
    ManagerAdds(s, step, s');
    ManagerKeepsFetches(s, step, s');
    ManagerKeepsQueue(s, step, s');
  }

  lemma ManagerKeepsTablesValid(s: State, step: Step, s': State)
    requires ObjectsValid(s) && ManagerNext(s, step, s')
    ensures s'.exports.Keys == s.exports.Keys && ExportsValid(s'.exports, |s'.allPortals|, |s.allChannels|)
    ensures PortalsValid(s'.portals, s'.allPortals) && |s.allPortals| <= |s'.allPortals|
  {
    hide ChannelsValid, AnswersValid, ConnectsValid;
    if !step.RecvPortalRequest? {
      assert s'.exports == s.exports && s'.portals == s.portals && s'.allPortals == s.allPortals;
    }
  }

  lemma ManagerKeepsAnswersValid(s: State, step: Step, s': State)
    requires ObjectsValid(s) && ManagerNext(s, step, s')
    ensures AnswersValid(s'.fetches, |s.allChannels|)
  {
    hide ChannelsValid, ExportsValid, ConnectsValid, PortalsValid;
    if !step.RecvFetchRequest? {
      assert s'.fetches == s.fetches;
    }
  }

  lemma ManagerKeepsObjectsValid(s: State, step: Step, s': State)
    requires ObjectsValid(s) && ManagerNext(s, step, s')
    ensures ObjectsValid(s')
  {
    ManagerKeepsTablesValid(s, step, s');
    ManagerKeepsAnswersValid(s, step, s');
    hide ManagerNext, ExportsValid, AnswersValid, ChannelsValid, PortalsValid;
    ManagerFrame(s, step, s');
  }

  lemma ChannelKeepsTasksValid(s: State, step: Step, s': State)
    requires TasksValid(s) && ChannelNext(s, step, s')
    ensures TasksValid(s')
  {
  }

  lemma ChannelKeepsObjectsValid(s: State, step: Step, s': State)
    requires ObjectsValid(s) && ChannelNext(s, step, s')
    ensures ObjectsValid(s')
  {
  }

  lemma PortalKeepsTasksValid(s: State, step: Step, s': State)
    requires TasksValid(s) && PortalNext(s, step, s')
    ensures TasksValid(s')
  {
    assert s'.exports.Keys == s.exports.Keys;
    hide PortalNext, FetchesValid, AuthsValid, QueueValid;
    PortalFrame(s, step, s');
  }

  lemma PortalKeepsTablesValid(s: State, step: Step, s': State)
    requires ObjectsValid(s) && PortalNext(s, step, s')
    ensures ExportsValid(s'.exports, |s.allPortals|, |s'.allChannels|)
  {
    hide ChannelsValid, AnswersValid, PortalsValid;
    if !step.ConnectExport? {
      assert s'.exports == s.exports;
    }
  }

  lemma PortalKeepsConnectsValid(s: State, step: Step, s': State)
    requires ObjectsValid(s) && PortalNext(s, step, s')
    ensures s'.exports.Keys == s.exports.Keys
    ensures ConnectsValid(s'.connects, s.exports.Keys, |s.allPortals|, |s'.allChannels|)
  {
    hide AnswersValid, PortalsValid;
  }

  lemma PortalKeepsObjectsValid(s: State, step: Step, s': State)
    requires ObjectsValid(s) && PortalNext(s, step, s')
    ensures ObjectsValid(s')
  {
    PortalKeepsTablesValid(s, step, s');
    PortalKeepsConnectsValid(s, step, s');
    PortalGrowsObjects(s, step, s');
    hide PortalNext, ExportsValid, ConnectsValid, PortalsValid;
    PortalFrame(s, step, s');
  }

  lemma StepKeepsValid(s: State, step: Step, s': State)
    requires Valid(s) && Next(s, step, s')
    ensures Valid(s')
  {
    hide NetNext, SessionNext, FetchNext, GatewayNext, ManagerNext, ChannelNext, PortalNext;
    if NetNext(s, step, s') {
      NetKeepsTasksValid(s, step, s');
      NetKeepsObjectsValid(s, step, s');
    } else if SessionNext(s, step, s') {
      SessionKeepsTasksValid(s, step, s');
      SessionKeepsObjectsValid(s, step, s');
    } else if FetchNext(s, step, s') {
      FetchKeepsTasksValid(s, step, s');
      FetchKeepsObjectsValid(s, step, s');
    } else if GatewayNext(s, step, s') {
      GatewayKeepsTasksValid(s, step, s');
      GatewayKeepsObjectsValid(s, step, s');
    } else if ManagerNext(s, step, s') {
      ManagerKeepsTasksValid(s, step, s');
      ManagerKeepsObjectsValid(s, step, s');
    } else if ChannelNext(s, step, s') {
      ChannelKeepsTasksValid(s, step, s');
      ChannelKeepsObjectsValid(s, step, s');
    } else if PortalNext(s, step, s') {
      PortalKeepsTasksValid(s, step, s');
      PortalKeepsObjectsValid(s, step, s');
    }
  }

  lemma GrowsTransitive(s: State, t: State, u: State)
    requires Grows(s, t) && Grows(t, u)
    ensures Grows(s, u)
  {
  }

  /** Whatever a state of a run holds in its logs, tables and maps, every later state still holds. */
  lemma {:induction false} RunGrows(run: Run, i: nat, j: nat)
    requires IsRun(run) && i <= j < |run.states|
    ensures Grows(run.states[i], run.states[j])
    decreases j - i
  {
    hide Next;
    if i == j {
    } else {
      RunGrows(run, i, j - 1);
      StepGrows(run.states[j - 1], run.steps[j - 1], run.states[j]);
      GrowsTransitive(run.states[i], run.states[j - 1], run.states[j]);
    }
  }

  lemma {:induction false} AlwaysValid(run: Run, i: nat)
    requires IsRun(run) && i < |run.states|
    ensures Valid(run.states[i])
  {
    hide Next;
    if i == 0 {
    } else {
      AlwaysValid(run, i - 1);
      StepKeepsValid(run.states[i - 1], run.steps[i - 1], run.states[i]);
    }
  }
}
