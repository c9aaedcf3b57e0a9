/** Who can authenticate: only a session that has fetched the gateway by its name. */
module GatewayAccess {
  import opened Foundation
  import opened Node
  import opened Growth
  import opened Fetching

  /** The step exports the gateway to session `k`, at position `at`, in answer to its fetch `f`. */
  ghost predicate Fetches(s: State, step: Step, k: Key, at: nat, f: nat) {
    && step == FetchExport(f) && f < |s.fetches| && s.fetches[f].session == k && Spells(s.fetches[f].swiss, "gateway")
    && k in s.exports && at == |s.exports[k]|
  }

  /** The step is the call that makes authentication `a`, at a position that denotes the gateway. */
  ghost predicate CallsGateway(s: State, step: Step, call: AuthCall, a: nat) {
    && step.CallAuthenticate? && a == |s.auths| && Denotes(s.exports, call.session, step.at, Gateway)
    && step == CallAuthenticate(call.session, step.at, call.peerKey, call.message, call.signature)
  }

  lemma NetExportsNoGateway(s: State, step: Step, s': State, k: Key, at: nat)
    requires NetNext(s, step, s') && Denotes(s'.exports, k, at, Gateway)
    ensures Denotes(s.exports, k, at, Gateway)
  {
  }

  lemma ManagerExportsNoGateway(s: State, step: Step, s': State, k: Key, at: nat)
    requires ManagerNext(s, step, s') && Denotes(s'.exports, k, at, Gateway)
    ensures Denotes(s.exports, k, at, Gateway)
  {
  }

  lemma PortalExportsNoGateway(s: State, step: Step, s': State, k: Key, at: nat)
    requires PortalNext(s, step, s') && Denotes(s'.exports, k, at, Gateway)
    ensures Denotes(s.exports, k, at, Gateway)
  {
    if !step.ConnectExport? {
      assert s'.exports == s.exports;
    }
  }

  lemma FetchExportsGateway(s: State, step: Step, s': State, k: Key, at: nat)
    requires Sound(s) && FetchNext(s, step, s') && Denotes(s'.exports, k, at, Gateway)
    ensures Denotes(s.exports, k, at, Gateway) || (step.FetchExport? && Fetches(s, step, k, at, step.fetch))
  {
    hide RegistriesSound, LogSound;
    if step.FetchExport? {
      assert TaskSound(s.fetches[step.fetch], s.exports, s.dataChannels);
      SpellsGateway(s.fetches[step.fetch].swiss);
    } else {
      assert s'.exports == s.exports;
    }
  }

  lemma GatewayExportStep(s: State, step: Step, s': State, k: Key, at: nat)
    requires Sound(s) && Next(s, step, s') && Denotes(s'.exports, k, at, Gateway)
    ensures Denotes(s.exports, k, at, Gateway) || (step.FetchExport? && Fetches(s, step, k, at, step.fetch))
  {
    hide NetNext, SessionNext, FetchNext, GatewayNext, ManagerNext, ChannelNext, PortalNext, Sound;
    StepFrame(s, step, s');
    if NetNext(s, step, s') {
      NetExportsNoGateway(s, step, s', k, at);
    } else if FetchNext(s, step, s') {
      FetchExportsGateway(s, step, s', k, at);
    } else if ManagerNext(s, step, s') {
      ManagerExportsNoGateway(s, step, s', k, at);
    } else if PortalNext(s, step, s') {
      PortalExportsNoGateway(s, step, s', k, at);
    }
  }

  /** The gateway is in a session's table only in answer to a fetch of that session, by the gateway's name. */
  lemma {:induction false} GatewayExportOrigin(run: Run, i: nat, k: Key, at: nat) returns (j: nat, f: nat)
    requires IsRun(run) && i < |run.states| && Denotes(run.states[i].exports, k, at, Gateway)
    ensures j < i && Fetches(run.states[j], run.steps[j], k, at, f)
  {
    hide NetNext, SessionNext, FetchNext, GatewayNext, ManagerNext, ChannelNext, PortalNext, Sound;
    assert i > 0;
    var s, step, s' := run.states[i - 1], run.steps[i - 1], run.states[i];
    AlwaysSound(run, i - 1);
    GatewayExportStep(s, step, s', k, at);
    if Denotes(s.exports, k, at, Gateway) {
      j, f := GatewayExportOrigin(run, i - 1, k, at);
    } else {
      j, f := i - 1, step.fetch;
    }
  }

  lemma CallStep(s: State, step: Step, s': State, a: nat)
    requires GatewayNext(s, step, s') && a < |s'.auths|
    ensures (a < |s.auths| && s'.auths[a] == s.auths[a].(stage := s'.auths[a].stage))
            || CallsGateway(s, step, s'.auths[a], a)
  {
  }

  lemma {:induction false} CallOrigin(run: Run, i: nat, a: nat) returns (j: nat)
    requires IsRun(run) && i < |run.states| && a < |run.states[i].auths|
    ensures j < i && CallsGateway(run.states[j], run.steps[j], run.states[i].auths[a], a)
  {
    hide NetNext, SessionNext, FetchNext, GatewayNext, ManagerNext, ChannelNext, PortalNext;
    assert i > 0;
    var s, step, s' := run.states[i - 1], run.steps[i - 1], run.states[i];
    StepFrame(s, step, s');
    if GatewayNext(s, step, s') {
      CallStep(s, step, s', a);
    }
    if CallsGateway(s, step, s'.auths[a], a) {
      j := i - 1;
    } else {
      j := CallOrigin(run, i - 1, a);
    }
  }

  /** Every authentication goes back to two steps, in order: the gateway was exported to its session in answer to a
      fetch of its name, and the session called the gateway at that position, with the key, the bytes and the
      signature that are checked. */
  lemma AuthenticationOrigin(run: Run, i: nat, a: nat) returns (j1: nat, j2: nat, f: nat)
    requires IsRun(run) && i < |run.states| && a < |run.states[i].auths|
    ensures var call := run.states[i].auths[a];
            && j1 < j2 < i && CallsGateway(run.states[j2], run.steps[j2], call, a)
            && Fetches(run.states[j1], run.steps[j1], call.session, run.steps[j2].at, f)
  {
    hide Next, Sound;
    j2 := CallOrigin(run, i, a);
    j1, f := GatewayExportOrigin(run, j2, run.states[i].auths[a].session, run.steps[j2].at);
  }
}
