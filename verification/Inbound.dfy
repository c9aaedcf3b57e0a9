/** Who can call a channel, and so send messages into it: only a session that connected to it through its portal, or
    that the node itself connected it to. */
module Inbound {
  import opened Foundation
  import opened Node
  import opened Growth
  import opened Fetching
  import opened Authority
  import opened Serial

  /** The step exports channel `c` to session `k`, at position `at`, for connect task `n`. */
  ghost predicate ExportsTo(s: State, step: Step, k: Key, at: nat, c: nat, n: nat) {
    && step == ConnectExport(n) && n < |s.connects| && s.connects[n].session == k && s.connects[n].stage == Exporting(c)
    && k in s.exports && at == |s.exports[k]|
  }

  lemma PortalExportsTo(s: State, step: Step, s': State, k: Key, at: nat, c: nat)
    requires PortalNext(s, step, s') && Denotes(s'.exports, k, at, ChannelRef(c))
    ensures Denotes(s.exports, k, at, ChannelRef(c))
            || (step.ConnectExport? && ExportsTo(s, step, k, at, c, step.connect))
  {
    if step.ConnectExport? {
      var t := s.connects[step.connect];
      ExportDenotes(s.exports, t.session, ChannelRef(t.stage.channel), k, at, ChannelRef(c));
    }
  }

  lemma ExportStep(s: State, step: Step, s': State, k: Key, at: nat, c: nat)
    requires Sound(s) && Next(s, step, s') && Unfetched(s.dataChannels, c) && Denotes(s'.exports, k, at, ChannelRef(c))
    ensures Denotes(s.exports, k, at, ChannelRef(c))
            || (step.ConnectExport? && ExportsTo(s, step, k, at, c, step.connect))
  {
    hide NetNext, SessionNext, FetchNext, GatewayNext, ManagerNext, ChannelNext, PortalNext;
    if PortalNext(s, step, s') {
      PortalExportsTo(s, step, s', k, at, c);
    } else {
      OutsideConnects(s, step, s');
    }
  }

  /** A channel that no fetch answers with is in a session's table only by the export of a connect of that session. */
  lemma {:induction false} ChannelExportOrigin(run: Run, i: nat, k: Key, at: nat, c: nat) returns (j: nat, n: nat)
    requires IsRun(run) && i < |run.states| && Unfetched(run.states[i].dataChannels, c)
    requires Denotes(run.states[i].exports, k, at, ChannelRef(c))
    ensures j < i && ExportsTo(run.states[j], run.steps[j], k, at, c, n)
  {
    hide NetNext, SessionNext, FetchNext, GatewayNext, ManagerNext, ChannelNext, PortalNext;
    assert i > 0;
    var s, step, s' := run.states[i - 1], run.steps[i - 1], run.states[i];
    RunGrows(run, i - 1, i);
    AlwaysSound(run, i - 1);
    ExportStep(s, step, s', k, at, c);
    if Denotes(s.exports, k, at, ChannelRef(c)) {
      j, n := ChannelExportOrigin(run, i - 1, k, at, c);
    } else {
      j, n := i - 1, step.connect;
    }
  }

  // ----- the node's own connects

  /** Connect task `n` is the node's own, over session `k`, with channel `c`. */
  ghost predicate OwnConnect(s: State, n: nat, k: Key, c: nat) {
    && n < |s.connects| && s.connects[n].kind.Outgoing? && s.connects[n].session == k
    && (s.connects[n].stage.Exporting? || s.connects[n].stage.HookingChannel? || s.connects[n].stage.Connected?)
    && s.connects[n].stage.channel == c
  }

  /** The step is the `RemotePortal::connect`, over session `k`, that makes task `n` and channel `c`. */
  ghost predicate ConnectsOut(s: State, step: Step, n: nat, k: Key, c: nat) {
    step.RemoteConnect? && step.session == k && |s.connects| == n && |s.allChannels| == c
  }

  lemma OwnConnectStep(s: State, step: Step, s': State, n: nat, k: Key, c: nat)
    requires ObjectsValid(s) && PortalNext(s, step, s') && OwnConnect(s', n, k, c)
    ensures OwnConnect(s, n, k, c) || ConnectsOut(s, step, n, k, c)
  {
    assert n < |s.connects| ==> ConnectValid(s.connects[n], |s.allPortals|, |s.allChannels|);
  }

  lemma {:induction false} OwnConnectOrigin(run: Run, i: nat, n: nat, k: Key, c: nat) returns (j: nat)
    requires IsRun(run) && i < |run.states| && OwnConnect(run.states[i], n, k, c)
    ensures j < i && ConnectsOut(run.states[j], run.steps[j], n, k, c)
  {
    hide NetNext, SessionNext, FetchNext, GatewayNext, ManagerNext, ChannelNext, PortalNext;
    assert i > 0;
    var s, step, s' := run.states[i - 1], run.steps[i - 1], run.states[i];
    AlwaysValid(run, i - 1);
    StepFrame(s, step, s');
    if PortalNext(s, step, s') {
      OwnConnectStep(s, step, s', n, k, c);
    }
    if OwnConnect(s, n, k, c) {
      j := OwnConnectOrigin(run, i - 1, n, k, c);
    } else {
      j := i - 1;
    }
  }

  // ----- the inbound chain

  /** The export at step `j` for task `n` ends a chain: a verified signature, a granted portal and a connect call on
      it that named the channel; or it is the node's own connect over that session, made with the channel. */
  ghost predicate Invited(run: Run, k: Key, c: nat, n: nat, j: nat, i1: nat, i2: nat, i3: nat, a: nat, peer: Key) {
    && |run.states| == |run.steps| + 1 && i1 <= i2 <= i3 < j < |run.steps| && n < |run.states[j].connects|
    && match run.states[j].connects[n].kind
       case Outgoing => ConnectsOut(run.states[i3], run.steps[i3], n, k, c)
       case Incoming(portal, outbox) =>
         && i1 < i2 < i3 && c < |run.states[j].allChannels|
         && Authenticates(run.states[i1], run.steps[i1], k, peer, a)
         && Grants(run.states[i2], run.steps[i2], run.states[i2 + 1], k, portal, peer, a)
         && Calls(run.states[i3], run.steps[i3], k, n, portal, run.states[j].allChannels[c].id, outbox)
  }

  /** Whatever session can call a channel was invited to it: by a chain from a signature verified on that session, or
      by the node itself. */
  lemma InboundAuthority(run: Run, i: nat, k: Key, at: nat, c: nat)
    returns (j: nat, n: nat, i1: nat, i2: nat, i3: nat, a: nat, peer: Key)
    requires IsRun(run) && i < |run.states| && Unfetched(run.states[i].dataChannels, c)
    requires Denotes(run.states[i].exports, k, at, ChannelRef(c))
    ensures j < i && ExportsTo(run.states[j], run.steps[j], k, at, c, n)
            && Invited(run, k, c, n, j, i1, i2, i3, a, peer)
  {
    hide NetNext, SessionNext, FetchNext, GatewayNext, ManagerNext, ChannelNext, PortalNext;
    j, n := ChannelExportOrigin(run, i, k, at, c);
    var s := run.states[j];
    AlwaysValid(run, j);
    AlwaysNamed(run, j);
    var t := s.connects[n];
    if t.kind.Outgoing? {
      i3 := OwnConnectOrigin(run, j, n, k, c);
      i1, i2, a, peer := i3, i3, 0, k;
    } else {
      assert ConnectValid(t, |s.allPortals|, |s.allChannels|) && Names(t, s);
      peer := s.allPortals[t.kind.portal].remoteKey;
      i1, i2, i3, a := CallAuthority(run, j, n, t, peer);
    }
  }
}
