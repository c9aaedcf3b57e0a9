/** Where authority comes from: every outbox in a channel goes back, through a connect call, a portal
    exported to the session, and a request on the manager's queue, to a verified authentication. */
module Authority {
  import opened Foundation
  import opened Node
  import opened Growth

  // ----- what one step can add

  /** A connect call of a peer that is past its lookup holds the registered channel that the call named. */
  ghost predicate Names(t: ConnectTask, s: State) {
    t.kind.Incoming? && !t.stage.Finding? && !t.stage.Unrecognized? ==>
      t.stage.channel < |s.allChannels| && s.allChannels[t.stage.channel].id == t.id && t.id in s.channels
  }

  ghost predicate AllName(s: State) {
    forall n :: 0 <= n < |s.connects| ==> Names(s.connects[n], s)
  }

  lemma NamesGrow(t: ConnectTask, s: State, s': State)
    requires Names(t, s) && ChannelsGrow(s.allChannels, s'.allChannels) && s.channels.Keys <= s'.channels.Keys
    ensures Names(t, s')
  {
  }

  /** The lookup finds the channel of the id named, and no later step changes it. */
  lemma PortalNames(s: State, step: Step, s': State, n: nat)
    requires AllName(s) && ChannelsValid(s.channels, s.allChannels) && PortalNext(s, step, s') && n < |s'.connects|
    ensures Names(s'.connects[n], s)
  {
    assert n < |s.connects| ==> Names(s.connects[n], s);
  }

  lemma PortalKeepsNames(s: State, step: Step, s': State)
    requires AllName(s) && ChannelsValid(s.channels, s.allChannels) && PortalNext(s, step, s')
    ensures AllName(s')
  {
    hide PortalNext, ChannelsGrow;
    PortalGrowsObjects(s, step, s');
    PortalFrame(s, step, s');
    forall n: nat | n < |s'.connects| ensures Names(s'.connects[n], s') {
      PortalNames(s, step, s', n);
      NamesGrow(s'.connects[n], s, s');
    }
  }

  lemma GrowthKeepsNames(s: State, s': State)
    requires AllName(s) && Grows(s, s') && s'.connects == s.connects
    ensures AllName(s')
  {
    forall n | 0 <= n < |s.connects| ensures Names(s.connects[n], s') {
      assert Names(s.connects[n], s);
    }
  }

  lemma {:induction false} AlwaysNamed(run: Run, i: nat)
    requires IsRun(run) && i < |run.states|
    ensures AllName(run.states[i])
  {
    hide NetNext, SessionNext, FetchNext, GatewayNext, ManagerNext, ChannelNext, PortalNext;
    if i == 0 {
    } else {
      AlwaysNamed(run, i - 1);
      AlwaysValid(run, i - 1);
      var s, step, s' := run.states[i - 1], run.steps[i - 1], run.states[i];
      if PortalNext(s, step, s') {
        PortalKeepsNames(s, step, s');
      } else {
        StepFrame(s, step, s');
        StepGrows(s, step, s');
        GrowthKeepsNames(s, s');
      }
    }
  }

  /** The step installs `outbox` for session `k` in channel `c`, through a portal that carries the outbox's peer
      key; the channel is registered, under the id that the connect call named. */
  ghost predicate Installs(s: State, step: Step, c: nat, k: Key, outbox: Outbox, n: nat) {
    && step == ConnectInstall(n) && n < |s.connects| && s.connects[n].session == k
    && s.connects[n].stage.Installing? && s.connects[n].stage.channel == c
    && c < |s.allChannels| && s.allChannels[c].id == s.connects[n].id && s.connects[n].id in s.channels
    && s.connects[n].kind.Incoming? && s.connects[n].kind.outbox == outbox.base
    && s.connects[n].kind.portal < |s.allPortals|
    && s.allPortals[s.connects[n].kind.portal].remoteKey == outbox.peerKey
  }

  ghost predicate HasOutbox(s: State, c: nat, k: Key, outbox: Outbox) {
    c < |s.allChannels| && k in s.allChannels[c].outboxes && s.allChannels[c].outboxes[k] == outbox
  }

  lemma PortalOutbox(s: State, step: Step, s': State, c: nat, k: Key, outbox: Outbox)
    requires AllName(s) && PortalNext(s, step, s') && HasOutbox(s', c, k, outbox)
    ensures HasOutbox(s, c, k, outbox) || (step.ConnectInstall? && Installs(s, step, c, k, outbox, step.connect))
  {
    if step.ConnectInstall? {
      assert Names(s.connects[step.connect], s);
    }
  }

  lemma HookedOutbox(s: State, step: Step, s': State, c: nat, k: Key, outbox: Outbox)
    requires (FetchNext(s, step, s') || ChannelNext(s, step, s')) && HasOutbox(s', c, k, outbox)
    ensures HasOutbox(s, c, k, outbox)
  {
    hide FetchNext;
    if FetchNext(s, step, s') {
      FetchKeepsOutboxes(s, step, s');
    }
  }

  lemma OutboxStep(s: State, step: Step, s': State, c: nat, k: Key, outbox: Outbox)
    requires AllName(s) && Next(s, step, s') && HasOutbox(s', c, k, outbox)
    ensures HasOutbox(s, c, k, outbox) || (step.ConnectInstall? && Installs(s, step, c, k, outbox, step.connect))
  {
    hide NetNext, SessionNext, FetchNext, GatewayNext, ManagerNext, ChannelNext, PortalNext;
    StepFrame(s, step, s');
    if PortalNext(s, step, s') {
      PortalOutbox(s, step, s', c, k, outbox);
    } else if FetchNext(s, step, s') || ChannelNext(s, step, s') {
      HookedOutbox(s, step, s', c, k, outbox);
    }
  }

  /** The step is the call, on session `k` and with channel id `id` and outbox `base`, that makes connect task `n`. */
  ghost predicate Calls(s: State, step: Step, k: Key, n: nat, portal: nat, id: Uuid, base: nat) {
    && step.CallConnect? && step.session == k && step.id == id && step.outbox == base && |s.connects| == n
    && Denotes(s.exports, k, step.at, PortalRef(portal))
  }

  ghost predicate HasConnect(s: State, n: nat, k: Key, portal: nat, id: Uuid, base: nat) {
    n < |s.connects| && s.connects[n] == ConnectTask(k, Incoming(portal, base), id, s.connects[n].stage)
  }

  lemma PortalConnect(s: State, step: Step, s': State, n: nat, k: Key, portal: nat, id: Uuid, base: nat)
    requires PortalNext(s, step, s') && HasConnect(s', n, k, portal, id, base)
    ensures HasConnect(s, n, k, portal, id, base) || Calls(s, step, k, n, portal, id, base)
  {
  }

  lemma ConnectStep(s: State, step: Step, s': State, n: nat, k: Key, portal: nat, id: Uuid, base: nat)
    requires Next(s, step, s') && HasConnect(s', n, k, portal, id, base)
    ensures HasConnect(s, n, k, portal, id, base) || Calls(s, step, k, n, portal, id, base)
  {
    hide NetNext, SessionNext, FetchNext, GatewayNext, ManagerNext, ChannelNext, PortalNext;
    StepFrame(s, step, s');
    if PortalNext(s, step, s') {
      PortalConnect(s, step, s', n, k, portal, id, base);
    }
  }

  /** The step exports `portal` to session `k`, answering the queued request of authentication `a` with
      peer key `peer`. */
  ghost predicate Grants(s: State, step: Step, s': State, k: Key, portal: nat, peer: Key, a: nat) {
    && step == RecvPortalRequest && s.received < |s.sent|
    && s.sent[s.received] == PortalRequest(k, peer, a)
    && peer in s'.portals && s'.portals[peer] == portal
  }

  ghost predicate Granted(s: State, step: Step, s': State, k: Key, portal: nat) {
    exists peer, a :: Grants(s, step, s', k, portal, peer, a)
  }

  lemma ManagerExport(s: State, step: Step, s': State, k: Key, at: nat, portal: nat)
    requires ManagerNext(s, step, s') && Denotes(s'.exports, k, at, PortalRef(portal))
    ensures Denotes(s.exports, k, at, PortalRef(portal)) || Granted(s, step, s', k, portal)
  {
    if step == RecvPortalRequest {
      var event := s.sent[s.received];
      assert Denotes(s.exports, k, at, PortalRef(portal)) || Grants(s, step, s', k, portal, event.peerKey, event.auth);
    }
  }

  lemma FetchExportsNoPortal(s: State, step: Step, s': State, k: Key, at: nat, portal: nat)
    requires AnswersValid(s.fetches, |s.allChannels|) && FetchNext(s, step, s')
    requires Denotes(s'.exports, k, at, PortalRef(portal))
    ensures Denotes(s.exports, k, at, PortalRef(portal))
  {
    if !step.FetchExport? {
      assert s'.exports == s.exports;
    }
  }

  lemma OtherExport(s: State, step: Step, s': State, k: Key, at: nat, portal: nat)
    requires NetNext(s, step, s') || PortalNext(s, step, s')
    requires Denotes(s'.exports, k, at, PortalRef(portal))
    ensures Denotes(s.exports, k, at, PortalRef(portal))
  {
  }

  lemma PortalExportStep(s: State, step: Step, s': State, k: Key, at: nat, portal: nat)
    requires Valid(s) && Next(s, step, s') && Denotes(s'.exports, k, at, PortalRef(portal))
    ensures Denotes(s.exports, k, at, PortalRef(portal)) || Granted(s, step, s', k, portal)
  {
    hide NetNext, SessionNext, FetchNext, GatewayNext, ManagerNext, ChannelNext, PortalNext;
    StepFrame(s, step, s');
    if ManagerNext(s, step, s') {
      ManagerExport(s, step, s', k, at, portal);
    } else if FetchNext(s, step, s') {
      FetchExportsNoPortal(s, step, s', k, at, portal);
    } else if NetNext(s, step, s') || PortalNext(s, step, s') {
      OtherExport(s, step, s', k, at, portal);
    }
  }

  /** The step queues the request of authentication `a` on session `k` with peer key `peer`: the
      signature it brought passes for that key. */
  ghost predicate Authenticates(s: State, step: Step, k: Key, peer: Key, a: nat) {
    && step == AuthRequest(a) && a < |s.auths| && s.auths[a].session == k && s.auths[a].peerKey == peer
    && VerifyStrict(s.ledger, peer, s.auths[a].message, s.auths[a].signature)
  }

  ghost predicate SentAt(s: State, i: nat, event: NetworkEvent) {
    i < |s.sent| && s.sent[i] == event
  }

  lemma GatewayRequest(s: State, step: Step, s': State, i: nat, k: Key, peer: Key, a: nat)
    requires GatewayNext(s, step, s') && SentAt(s', i, PortalRequest(k, peer, a))
    ensures SentAt(s, i, PortalRequest(k, peer, a)) || Authenticates(s, step, k, peer, a)
  {
  }

  lemma OtherRequest(s: State, step: Step, s': State, i: nat, k: Key, peer: Key, a: nat)
    requires NetNext(s, step, s') || SessionNext(s, step, s') || FetchNext(s, step, s') || ManagerNext(s, step, s')
    requires SentAt(s', i, PortalRequest(k, peer, a))
    ensures SentAt(s, i, PortalRequest(k, peer, a))
  {
    hide NetNext, SessionNext, FetchNext, ManagerNext;
    if NetNext(s, step, s') {
      NetAdds(s, step, s');
    } else if SessionNext(s, step, s') {
      SessionAdds(s, step, s');
    } else if FetchNext(s, step, s') {
      FetchAdds(s, step, s');
    } else {
      ManagerAdds(s, step, s');
    }
  }

  lemma RequestStep(s: State, step: Step, s': State, i: nat, k: Key, peer: Key, a: nat)
    requires Next(s, step, s') && SentAt(s', i, PortalRequest(k, peer, a))
    ensures SentAt(s, i, PortalRequest(k, peer, a)) || Authenticates(s, step, k, peer, a)
  {
    hide NetNext, SessionNext, FetchNext, GatewayNext, ManagerNext, ChannelNext, PortalNext;
    StepFrame(s, step, s');
    if GatewayNext(s, step, s') {
      GatewayRequest(s, step, s', i, k, peer, a);
    } else if NetNext(s, step, s') || SessionNext(s, step, s') || FetchNext(s, step, s') || ManagerNext(s, step, s') {
      OtherRequest(s, step, s', i, k, peer, a);
    }
  }

  // ----- the step that added it

  lemma {:induction false} OutboxOrigin(run: Run, i: nat, c: nat, k: Key, outbox: Outbox) returns (j: nat, n: nat)
    requires IsRun(run) && i < |run.states| && HasOutbox(run.states[i], c, k, outbox)
    ensures j < i && Installs(run.states[j], run.steps[j], c, k, outbox, n)
  {
    hide NetNext, SessionNext, FetchNext, GatewayNext, ManagerNext, ChannelNext, PortalNext;
    assert i > 0;
    AlwaysNamed(run, i - 1);
    var s, step := run.states[i - 1], run.steps[i - 1];
    OutboxStep(s, step, run.states[i], c, k, outbox);
    if HasOutbox(s, c, k, outbox) {
      j, n := OutboxOrigin(run, i - 1, c, k, outbox);
    } else {
      j, n := i - 1, step.connect;
    }
  }

  lemma {:induction false} ConnectOrigin(run: Run, i: nat, n: nat, k: Key, portal: nat, id: Uuid, base: nat)
    returns (j: nat)
    requires IsRun(run) && i < |run.states| && HasConnect(run.states[i], n, k, portal, id, base)
    ensures j < i && Calls(run.states[j], run.steps[j], k, n, portal, id, base)
  {
    hide NetNext, SessionNext, FetchNext, GatewayNext, ManagerNext, ChannelNext, PortalNext;
    assert i > 0;
    ConnectStep(run.states[i - 1], run.steps[i - 1], run.states[i], n, k, portal, id, base);
    if HasConnect(run.states[i - 1], n, k, portal, id, base) {
      j := ConnectOrigin(run, i - 1, n, k, portal, id, base);
    } else {
      j := i - 1;
    }
  }

  lemma {:induction false} PortalExportOrigin(run: Run, i: nat, k: Key, at: nat, portal: nat)
    returns (j: nat, peer: Key, a: nat)
    requires IsRun(run) && i < |run.states| && Denotes(run.states[i].exports, k, at, PortalRef(portal))
    ensures j < i && Grants(run.states[j], run.steps[j], run.states[j + 1], k, portal, peer, a)
  {
    hide NetNext, SessionNext, FetchNext, GatewayNext, ManagerNext, ChannelNext, PortalNext;
    assert i > 0;
    var s, step, s' := run.states[i - 1], run.steps[i - 1], run.states[i];
    AlwaysValid(run, i - 1);
    PortalExportStep(s, step, s', k, at, portal);
    hide IsRun, Valid;
    if Denotes(s.exports, k, at, PortalRef(portal)) {
      j, peer, a := PortalExportOrigin(run, i - 1, k, at, portal);
    } else {
      j := i - 1;
      peer, a :| Grants(s, step, s', k, portal, peer, a);
    }
  }

  lemma {:induction false} RequestOrigin(run: Run, i: nat, at: nat, k: Key, peer: Key, a: nat) returns (j: nat)
    requires IsRun(run) && i < |run.states| && SentAt(run.states[i], at, PortalRequest(k, peer, a))
    ensures j < i && Authenticates(run.states[j], run.steps[j], k, peer, a)
  {
    hide NetNext, SessionNext, FetchNext, GatewayNext, ManagerNext, ChannelNext, PortalNext;
    assert i > 0;
    RequestStep(run.states[i - 1], run.steps[i - 1], run.states[i], at, k, peer, a);
    if SentAt(run.states[i - 1], at, PortalRequest(k, peer, a)) {
      j := RequestOrigin(run, i - 1, at, k, peer, a);
    } else {
      j := i - 1;
    }
  }

  // ----- the events of connected peers

  /** The step installs an outbox in channel `c`. */
  predicate InstallsIn(s: State, step: Step, c: nat) {
    && step.ConnectInstall? && step.connect < |s.connects|
    && s.connects[step.connect].stage.Installing? && s.connects[step.connect].stage.channel == c
    && s.connects[step.connect].kind.Incoming? && s.connects[step.connect].kind.portal < |s.allPortals|
  }

  /** The keys of the portals through which outboxes were installed in channel `c` by the first `i` steps. */
  ghost function InstalledKeys(run: Run, i: nat, c: nat): seq<Key>
    requires i <= |run.steps| <= |run.states|
  {
    if i == 0 then []
    else
      var (s, step) := (run.states[i - 1], run.steps[i - 1]);
      InstalledKeys(run, i - 1, c) +
      if InstallsIn(s, step, c) then [s.allPortals[s.connects[step.connect].kind.portal].remoteKey] else []
  }

  function ConnectedTo(s: State, c: nat): seq<Key> {
    if c < |s.allChannels| then s.allChannels[c].connected else []
  }

  lemma PortalConnects(s: State, step: Step, s': State, c: nat)
    requires PortalNext(s, step, s')
    ensures ConnectedTo(s', c) == ConnectedTo(s, c) +
              if InstallsIn(s, step, c) then [s.allPortals[s.connects[step.connect].kind.portal].remoteKey] else []
  {
  }

  lemma OtherConnects(s: State, step: Step, s': State, c: nat)
    requires FetchNext(s, step, s') || ChannelNext(s, step, s')
    ensures ConnectedTo(s', c) == ConnectedTo(s, c)
  {
    hide FetchNext;
    if FetchNext(s, step, s') {
      FetchKeepsOutboxes(s, step, s');
    }
  }

  lemma OtherInstallsNone(s: State, step: Step, s': State)
    requires NetNext(s, step, s') || SessionNext(s, step, s') || FetchNext(s, step, s') || GatewayNext(s, step, s')
             || ManagerNext(s, step, s') || ChannelNext(s, step, s')
    ensures !step.ConnectInstall?
  {
  }

  /** Each install reports its peer: the connected peers of a channel are, in order, the keys of the portals through
      which outboxes were installed in it. */
  lemma {:induction false} ConnectedAreInstalled(run: Run, i: nat, c: nat)
    requires IsRun(run) && i < |run.states|
    ensures ConnectedTo(run.states[i], c) == InstalledKeys(run, i, c)
  {
    hide NetNext, SessionNext, FetchNext, GatewayNext, ManagerNext, ChannelNext, PortalNext;
    if i == 0 {
    } else {
      ConnectedAreInstalled(run, i - 1, c);
      var s, step, s' := run.states[i - 1], run.steps[i - 1], run.states[i];
      StepFrame(s, step, s');
      if PortalNext(s, step, s') {
        PortalConnects(s, step, s', c);
      } else {
        OtherInstallsNone(s, step, s');
        if FetchNext(s, step, s') || ChannelNext(s, step, s') {
          OtherConnects(s, step, s', c);
        }
      }
    }
  }

  // ----- the chain

  /** Four steps of the run, in order: the gateway verified the outbox's peer key on session `k` and queued the
      request; the manager exported that peer's portal to `k`; `k` called connect on that portal, naming the id of
      channel `c` and the outbox; the outbox was installed in `c`. */
  ghost predicate Chain(run: Run, c: nat, k: Key, outbox: Outbox, i1: nat, i2: nat, i3: nat, i4: nat,
                        a: nat, portal: nat, n: nat)
  {
    && |run.states| == |run.steps| + 1
    && i1 < i2 < i3 < i4 < |run.steps|
    && Authenticates(run.states[i1], run.steps[i1], k, outbox.peerKey, a)
    && Grants(run.states[i2], run.steps[i2], run.states[i2 + 1], k, portal, outbox.peerKey, a)
    && Installs(run.states[i4], run.steps[i4], c, k, outbox, n)
    && Calls(run.states[i3], run.steps[i3], k, n, portal, run.states[i4].allChannels[c].id, outbox.base)
  }

  /** Every outbox of every channel, in every state of every run, comes from such a chain on its own session, with its
      own peer key, for that very channel. */
  lemma OutboxAuthority(run: Run, i: nat, c: nat, k: Key, outbox: Outbox)
    returns (i1: nat, i2: nat, i3: nat, i4: nat, a: nat, portal: nat, n: nat)
    requires IsRun(run) && i < |run.states| && HasOutbox(run.states[i], c, k, outbox)
    ensures i4 < i && Chain(run, c, k, outbox, i1, i2, i3, i4, a, portal, n)
  {
    hide NetNext, SessionNext, FetchNext, GatewayNext, ManagerNext, ChannelNext, PortalNext;
    i4, n := OutboxOrigin(run, i, c, k, outbox);
    var t := run.states[i4].connects[n];
    portal := t.kind.portal;
    i1, i2, i3, a := CallAuthority(run, i4, n, t, outbox.peerKey);
  }

  /** The first three steps of the chain, for a connect task whose portal carries key `peer`. */
  lemma CallAuthority(run: Run, i: nat, n: nat, t: ConnectTask, peer: Key) returns (i1: nat, i2: nat, i3: nat, a: nat)
    requires IsRun(run) && i < |run.steps| && n < |run.states[i].connects| && run.states[i].connects[n] == t
    requires t.kind.Incoming? && t.kind.portal < |run.states[i].allPortals|
    requires run.states[i].allPortals[t.kind.portal].remoteKey == peer
    ensures i1 < i2 < i3 < i
    ensures Authenticates(run.states[i1], run.steps[i1], t.session, peer, a)
    ensures Grants(run.states[i2], run.steps[i2], run.states[i2 + 1], t.session, t.kind.portal, peer, a)
    ensures Calls(run.states[i3], run.steps[i3], t.session, n, t.kind.portal, t.id, t.kind.outbox)
  {
    hide NetNext, SessionNext, FetchNext, GatewayNext, ManagerNext, ChannelNext, PortalNext;
    i3 := ConnectOrigin(run, i, n, t.session, t.kind.portal, t.id, t.kind.outbox);
    var granted;
    i2, granted, a := PortalExportOrigin(run, i3, t.session, run.steps[i3].at, t.kind.portal);
    i1 := RequestOrigin(run, i2, run.states[i2].received, t.session, granted, a);
    // the portal's key is the one it was made for
    AlwaysValid(run, i2 + 1);
    RunGrows(run, i2 + 1, i);
    assert run.states[i2 + 1].allPortals[t.kind.portal].remoteKey == granted;
  }
}
