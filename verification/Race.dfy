/** The race of two connect calls does happen: a run, from the initial state, that exports a channel twice. */
module Race {
  import opened Foundation
  import opened Paths
  import opened Node
  import opened Growth
  import opened Dropping
  import opened Serial

  /** The portal request that is next is granted. */
  lemma PortalGiven(s: State, k: Key, peer: Key, a: nat) returns (s': State, at: nat, portal: nat)
    requires CanReceive(s) && s.sent[s.received] == PortalRequest(k, peer, a) && k in s.exports
    ensures Next(s, RecvPortalRequest, s') && Denotes(s'.exports, k, at, PortalRef(portal))
    ensures s'.dataChannels == s.dataChannels
  {
    var portals := PortalsWith(s.portals, |s.allPortals|, peer);
    at, portal := |s.exports[k]|, portals[peer];
    s' := s.(received := s.received + 1, portals := portals,
             allPortals := if peer in s.portals then s.allPortals else s.allPortals + [Portal(peer)],
             exports := Export(s.exports, k, PortalRef(portal)), hand := Some(Grant(a, at)));
    assert ManagerNext(s, RecvPortalRequest, s');
  }

  /** A channel is made and registered. */
  lemma ChannelRegistered(s: State, id: Uuid, info: ChannelInfo) returns (s1: State, s2: State)
    ensures Next(s, CreateChannel(id, info), s1) && Next(s1, RegisterChannel(|s.allChannels|), s2)
    ensures s2.exports == s.exports && s2.dataChannels == s.dataChannels
    ensures id in s2.channels && s2.channels[id] == |s.allChannels| < |s2.allChannels|
    ensures s2.allChannels[|s.allChannels|] == NewChannel(id, info)
  {
    s1 := s.(allChannels := s.allChannels + [NewChannel(id, info)]);
    s2 := s1.(channels := s.channels[id := |s.allChannels|]);
    assert ChannelNext(s, CreateChannel(id, info), s1) && ChannelNext(s1, RegisterChannel(|s.allChannels|), s2);
  }

  /** From the initial state to a session with a portal, and a registered channel that it was not given. */
  lemma ReadyRun(k: Key, entry: Signed, id: Uuid, info: ChannelInfo)
    returns (run: Run, at: nat, portal: nat)
    ensures IsRun(run) && var s := Last(run.states);
            && Denotes(s.exports, k, at, PortalRef(portal)) && id in s.channels && s.channels[id] < |s.allChannels|
            && k !in s.allChannels[s.channels[id]].exportedAt && s.dataChannels == map[]
  {
    hide Next, Init, Quiet, Fresh, Denotes, IsRun;
    var begun := FreshRun(k);
    run := GatewayRun(begun, k);
    var s := LastOf(run);
    var s1, s2, s3 := CallVerified(s, k, 2, entry);
    run := Extended(run, Sign(entry), s1);
    run := Extended(run, CallAuthenticate(k, 2, entry.key, entry.message, entry.signature), s2);
    run := Extended(run, AuthRequest(|s.auths|), s3);
    QuietThenQueued(s, s3, k);
    var s4;
    s4, at, portal := PortalGiven(s3, k, entry.key, |s.auths|);
    run := Extended(run, RecvPortalRequest, s4);
    var s5, s6 := ChannelRegistered(s4, id, info);
    run := Extended(run, CreateChannel(id, info), s5);
    run := Extended(run, RegisterChannel(|s4.allChannels|), s6);
  }

  lemma LastOf(run: Run) returns (s: State)
    requires IsRun(run)
    ensures run.states != [] && s == Last(run.states)
  {
    s := Last(run.states);
  }

  lemma QuietThenQueued(s: State, s': State, k: Key)
    requires Quiet(s) && Denotes(s.exports, k, 2, Gateway)
    requires s'.hand == s.hand && s'.received == s.received && s'.exports == s.exports && |s'.sent| == |s.sent| + 1
    ensures CanReceive(s') && k in s'.exports && s'.received == |s.sent|
  {
  }

  lemma Appended(run: Run, states: seq<State>, steps: seq<Step>) returns (longer: Run)
    requires IsRun(run) && Follows(Next, states, steps) && Last(run.states) == states[0]
    ensures IsRun(longer) && longer.steps == run.steps + steps && Last(longer.states) == Last(states)
    ensures run.states <= longer.states
  {
    hide Next, Init;
    longer := Run(run.states + states[1..], run.steps + steps);
  }

  /** In this run session `k` has channel `c` at two positions, though no fetch can have given it. */
  lemma RaceRun(k: Key, entry: Signed, id: Uuid, info: ChannelInfo) returns (run: Run, c: nat)
    ensures IsRun(run) && Unfetched(Last(run.states).dataChannels, c) && !ExportedOnce(Last(run.states), c, k)
  {
    hide Next, Init;
    var ready, at, portal := ReadyRun(k, entry, id, info);
    var s := Last(ready.states);
    c := s.channels[id];
    var states, steps := RacingConnectsExportTwice(s, k, at, portal, id);
    run := Appended(ready, states, steps);
    SameData(ready, run);
  }

  lemma SameData(a: Run, b: Run)
    requires IsRun(a) && IsRun(b) && a.steps <= b.steps && a.states[0] == b.states[0]
    ensures Last(a.states).dataChannels == Last(b.states).dataChannels
  {
    hide Next, Init;
    RunGrows(a, 0, |a.steps|);
    RunGrows(b, 0, |b.steps|);
  }
}
