/** Which promises are never settled: exactly those that a step drops, and how `recv_event` can drop one. */
module Dropping {
  import opened Foundation
  import opened Paths
  import opened Node
  import opened Growth
  import opened Promises

  /** The step ends promise `p` without settling it: its task is aborted, its settling fails, or `recv_event` fails
      or is dropped with it in hand. */
  predicate Drops(s: State, step: Step, p: Promise) {
    match step
    case FetchAbort(f) => p == FetchPromise(f)
    case FetchFulfill(f, ok) => !ok && p == FetchPromise(f)
    case FetchBreak(f, ok) => !ok && p == FetchPromise(f)
    case AuthReject(a, ok) => !ok && p == AuthPromise(a)
    case MgrFulfill(ok) => !ok && s.hand.Some? && p == AuthPromise(s.hand.value.auth)
    case MgrCancel => s.hand.Some? && p == AuthPromise(s.hand.value.auth)
    case _ => false
  }

  ghost predicate DropsExactly(s: State, step: Step, s': State, p: Promise) {
    p in s'.log.dropped <==> p in s.log.dropped || Drops(s, step, p)
  }

  lemma FetchDrops(s: State, step: Step, s': State, p: Promise)
    requires FetchNext(s, step, s')
    ensures DropsExactly(s, step, s', p)
  {
  }

  lemma GatewayDrops(s: State, step: Step, s': State, p: Promise)
    requires GatewayNext(s, step, s')
    ensures DropsExactly(s, step, s', p)
  {
  }

  lemma ManagerDrops(s: State, step: Step, s': State, p: Promise)
    requires ManagerNext(s, step, s')
    ensures DropsExactly(s, step, s', p)
  {
  }

  lemma LoopDrops(s: State, step: Step, s': State, p: Promise)
    requires NetNext(s, step, s') || SessionNext(s, step, s')
    ensures DropsExactly(s, step, s', p)
  {
  }

  lemma ChannelDrops(s: State, step: Step, s': State, p: Promise)
    requires ChannelNext(s, step, s')
    ensures DropsExactly(s, step, s', p)
  {
  }

  lemma PortalDrops(s: State, step: Step, s': State, p: Promise)
    requires PortalNext(s, step, s')
    ensures DropsExactly(s, step, s', p)
  {
  }

  lemma StepDrops(s: State, step: Step, s': State, p: Promise)
    requires Next(s, step, s')
    ensures DropsExactly(s, step, s', p)
  {
    hide NetNext, SessionNext, FetchNext, GatewayNext, ManagerNext, ChannelNext, PortalNext, DropsExactly;
    if FetchNext(s, step, s') {
      FetchDrops(s, step, s', p);
    } else if GatewayNext(s, step, s') {
      GatewayDrops(s, step, s', p);
    } else if ManagerNext(s, step, s') {
      ManagerDrops(s, step, s', p);
    } else if ChannelNext(s, step, s') {
      ChannelDrops(s, step, s', p);
    } else if PortalNext(s, step, s') {
      PortalDrops(s, step, s', p);
    } else {
      LoopDrops(s, step, s', p);
    }
  }

  /** Over any run, the promises dropped are exactly those that some step dropped. */
  lemma {:induction false} DroppedIff(run: Run, i: nat, p: Promise)
    requires IsRun(run) && i < |run.states|
    ensures p in run.states[i].log.dropped <==> exists j :: 0 <= j < i && Drops(run.states[j], run.steps[j], p)
  {
    hide Next, Drops;
    if i == 0 {
    } else {
      DroppedIff(run, i - 1, p);
      StepDrops(run.states[i - 1], run.steps[i - 1], run.states[i], p);
    }
  }

  /** The promise is with its task, on the queue or in the manager's hand. */
  ghost predicate UnderWay(s: State, p: Promise) {
    Holds(s, p, AtTask) || Holds(s, p, AtHand) || exists i :: Holds(s, p, AtQueue(i))
  }

  ghost predicate Settled(s: State, p: Promise) {
    exists i: nat :: i < |s.log.settled| && s.log.settled[i].promise == p
  }

  /** Every promise that is no longer under way was settled exactly if no step dropped it. */
  lemma SettledUnlessDropped(run: Run, i: nat, p: Promise)
    requires IsRun(run) && i < |run.states| && Issued(run.states[i], p) && !UnderWay(run.states[i], p)
    ensures Settled(run.states[i], p) <==> forall j :: 0 <= j < i ==> !Drops(run.states[j], run.steps[j], p)
  {
    hide Next, Drops;
    AlwaysLinear(run, i);
    DroppedIff(run, i, p);
    var s := run.states[i];
    var w :| Holds(s, p, w);
    if Settled(s, p) {
      var m: nat :| m < |s.log.settled| && s.log.settled[m].promise == p;
      assert Holds(s, p, AtSettled(m));
      forall n: nat | n < |s.log.dropped| ensures Holds(s, s.log.dropped[n], AtDropped(n)) {
      }
    }
  }

  // ----- it happens

  lemma Extended(run: Run, step: Step, s: State) returns (longer: Run)
    requires IsRun(run) && Next(Last(run.states), step, s)
    ensures IsRun(longer) && longer.steps == run.steps + [step] && longer.states == run.states + [s]
  {
    hide Next, Init;
    longer := Run(run.states + [s], run.steps + [step]);
  }

  /** The steps of one session up to its call of `authenticate`, each with the state it leads to. */
  lemma SessionBegins(s: State, k: Key) returns (s1: State, s2: State, s3: State)
    requires k !in s.exports
    ensures Next(s, NetProduce(k), s1) && Next(s1, NetAnnounce(k), s2) && Next(s2, NetSpawn(k), s3)
    ensures s3 == s.(phases := s3.phases, exports := s3.exports, registries := s3.registries,
                     sent := s.sent + [SessionStarted(k)])
    ensures k in s3.phases && s3.phases[k] == Running && k in s3.registries && s3.registries[k] == map[]
    ensures k in s3.exports && s3.exports[k] == [Bootstrap, FulfillResponseHandler]
  {
    s1 := s.(phases := s.phases[k := Produced], exports := s.exports[k := [Bootstrap]],
             registries := s.registries[k := map[]]);
    s2 := s1.(phases := s1.phases[k := Announced], sent := s1.sent + [SessionStarted(k)]);
    s3 := s2.(phases := s2.phases[k := Running], exports := Export(s2.exports, k, FulfillResponseHandler));
    assert NetNext(s, NetProduce(k), s1) && NetNext(s1, NetAnnounce(k), s2) && NetNext(s2, NetSpawn(k), s3);
  }

  lemma StartTaken(s: State, k: Key) returns (s': State)
    requires CanReceive(s) && s.sent[s.received] == SessionStarted(k)
    ensures Next(s, RecvStarted, s') && s' == s.(received := s.received + 1, live := s'.live, returned := s'.returned)
  {
    s' := s.(received := s.received + 1, live := s.live + {k},
             returned := s.returned + [Event(SessionStartedEvent(k))]);
    assert ManagerNext(s, RecvStarted, s');
  }

  lemma GatewayAsked(s: State, k: Key) returns (s1: State, s2: State)
    requires k in s.phases && s.phases[k] == Running && k in s.exports && k in s.registries && s.registries[k] == map[]
    ensures Next(s, RecvFetch(k, GATEWAY_SWISS), s1) && Next(s1, FetchMiss(|s.fetches|), s2)
    ensures s2 == s.(fetches := s.fetches + [FetchTask(k, GATEWAY_SWISS, Waiting)],
                     sent := s.sent + [Fetch(k, GATEWAY_SWISS, |s.fetches|)])
  {
    s1 := s.(fetches := s.fetches + [FetchTask(k, GATEWAY_SWISS, Asking)]);
    s2 := s1.(fetches := FetchTo(s1.fetches, |s.fetches|, Waiting),
              sent := s.sent + [Fetch(k, GATEWAY_SWISS, |s.fetches|)]);
    assert s2.fetches == s.fetches + [FetchTask(k, GATEWAY_SWISS, Waiting)];
    assert SessionNext(s, RecvFetch(k, GATEWAY_SWISS), s1) && FetchNext(s1, FetchMiss(|s.fetches|), s2);
  }

  lemma GatewayGiven(s: State, k: Key, f: nat) returns (s1: State, s2: State)
    requires CanReceive(s) && s.sent[s.received] == Fetch(k, GATEWAY_SWISS, f) && FetchAt(s, f)
    requires s.fetches[f] == FetchTask(k, GATEWAY_SWISS, Waiting)
    ensures Next(s, RecvFetchRequest, s1) && Next(s1, FetchExport(f), s2)
    ensures s2 == s.(received := s.received + 1, fetches := s2.fetches,
                     exports := s.exports[k := s.exports[k] + [Gateway]])
  {
    s1 := s.(received := s.received + 1, fetches := FetchTo(s.fetches, f, Answered(Some(Gateway))));
    s2 := s1.(fetches := FetchTo(s1.fetches, f, Hooking(Gateway, |s.exports[k]|)),
              exports := Export(s.exports, k, Gateway));
    assert ManagerNext(s, RecvFetchRequest, s1) && FetchNext(s1, FetchExport(f), s2);
  }

  /** An authentication whose signature passes, on any session that has the gateway, while the queue is empty: its
      portal request is taken, and `recv_event` is dropped while it fulfils it. */
  lemma CallVerified(s: State, k: Key, at: nat, entry: Signed) returns (s1: State, s2: State, s3: State)
    requires Denotes(s.exports, k, at, Gateway)
    ensures Next(s, Sign(entry), s1)
    ensures Next(s1, CallAuthenticate(k, at, entry.key, entry.message, entry.signature), s2)
    ensures Next(s2, AuthRequest(|s.auths|), s3)
    ensures s3 == s.(auths := s3.auths, ledger := s3.ledger, sent := s.sent + [PortalRequest(k, entry.key, |s.auths|)])
    ensures |s3.auths| == |s.auths| + 1
  {
    var (peer, message, signature, a) := (entry.key, entry.message, entry.signature, |s.auths|);
    s1 := s.(ledger := s.ledger + {entry});
    s2 := s1.(auths := s1.auths + [AuthCall(k, peer, message, signature, Checking)]);
    s3 := s2.(auths := AuthTo(s2.auths, a, Requested), sent := s2.sent + [PortalRequest(k, peer, a)]);
    assert GatewayNext(s, Sign(entry), s1) && GatewayNext(s1, CallAuthenticate(k, at, peer, message, signature), s2);
    assert GatewayNext(s2, AuthRequest(a), s3);
  }

  lemma CancelInHand(s: State, k: Key, peer: Key, a: nat) returns (s1: State, s2: State)
    requires CanReceive(s) && s.sent[s.received] == PortalRequest(k, peer, a) && k in s.exports
    ensures Next(s, RecvPortalRequest, s1) && Next(s1, MgrCancel, s2)
    ensures s1.hand.Some? && s1.hand.value.auth == a && s2.log == Drop(s.log, AuthPromise(a))
  {
    var portals := PortalsWith(s.portals, |s.allPortals|, peer);
    s1 := s.(received := s.received + 1, portals := portals,
             allPortals := if peer in s.portals then s.allPortals else s.allPortals + [Portal(peer)],
             exports := Export(s.exports, k, PortalRef(portals[peer])), hand := Some(Grant(a, |s.exports[k]|)));
    s2 := s1.(hand := None, log := Drop(s1.log, AuthPromise(a)));
    assert ManagerNext(s, RecvPortalRequest, s1) && ManagerNext(s1, MgrCancel, s2);
  }

  /** Nothing is queued or in the manager's hand. */
  ghost predicate Quiet(s: State) {
    s.hand == None && s.received == |s.sent|
  }

  /** The session runs, and has been given nothing. */
  ghost predicate Fresh(s: State, k: Key) {
    && k in s.phases && s.phases[k] == Running && k in s.registries && s.registries[k] == map[]
    && k in s.exports && s.exports[k] == [Bootstrap, FulfillResponseHandler]
  }

  lemma FreshRun(k: Key) returns (run: Run)
    ensures IsRun(run) && Quiet(Last(run.states)) && Fresh(Last(run.states), k)
    ensures Last(run.states).dataChannels == map[]
  {
    hide Next;
    var s0 := State(map[], map[], map[], [], 0, None, {}, map[], [], map[], map[], [], [], [], [], [], [],
                    Log([], []), {});
    run := Run([s0], []);
    var s1, s2, s3 := SessionBegins(s0, k);
    run := Extended(run, NetProduce(k), s1);
    run := Extended(run, NetAnnounce(k), s2);
    run := Extended(run, NetSpawn(k), s3);
    var s4 := StartTaken(s3, k);
    run := Extended(run, RecvStarted, s4);
  }

  lemma GatewayRun(run: Run, k: Key) returns (longer: Run)
    requires IsRun(run) && Quiet(Last(run.states)) && Fresh(Last(run.states), k)
    ensures IsRun(longer) && Quiet(Last(longer.states)) && Denotes(Last(longer.states).exports, k, 2, Gateway)
    ensures Last(longer.states).dataChannels == Last(run.states).dataChannels
  {
    hide Next;
    var s := Last(run.states);
    var f := |s.fetches|;
    var s1, s2 := GatewayAsked(s, k);
    longer := Extended(run, RecvFetch(k, GATEWAY_SWISS), s1);
    longer := Extended(longer, FetchMiss(f), s2);
    var s3, s4 := GatewayGiven(s2, k, f);
    longer := Extended(longer, RecvFetchRequest, s3);
    longer := Extended(longer, FetchExport(f), s4);
  }

  /** From any quiet state in which a session has the gateway, a verified authentication of that session can end
      with its promise dropped: `recv_event` is dropped while it fulfils the portal request. */
  lemma CancelDrops(run: Run, k: Key, at: nat, entry: Signed) returns (longer: Run, a: nat)
    requires IsRun(run) && Quiet(Last(run.states)) && Denotes(Last(run.states).exports, k, at, Gateway)
    ensures IsRun(longer) && run.states <= longer.states && longer.steps != [] && Last(longer.steps) == MgrCancel
    ensures |longer.states| > 1 && Drops(longer.states[|longer.states| - 2], MgrCancel, AuthPromise(a))
    ensures AuthPromise(a) in Last(longer.states).log.dropped
  {
    assert run.states != [] && k in Last(run.states).exports;
    hide Next, Init, Denotes, IsRun;
    var s := Last(run.states);
    a := |s.auths|;
    var s1, s2, s3 := CallVerified(s, k, at, entry);
    longer := Extended(run, Sign(entry), s1);
    longer := Extended(longer, CallAuthenticate(k, at, entry.key, entry.message, entry.signature), s2);
    longer := Extended(longer, AuthRequest(a), s3);
    var s4, s5 := CancelInHand(s3, k, entry.key, a);
    var before := Extended(longer, RecvPortalRequest, s4);
    longer := Extended(before, MgrCancel, s5);
    assert longer.states == before.states + [s5] && Last(before.states) == s4;
  }

  /** So there is a run that ends with the promise of a verified authentication dropped. */
  lemma CancelDropsPromise(k: Key, entry: Signed) returns (run: Run, a: nat)
    ensures IsRun(run) && run.steps != [] && Last(run.steps) == MgrCancel
    ensures AuthPromise(a) in Last(run.states).log.dropped
    ensures |run.states| > 1 && Drops(run.states[|run.states| - 2], MgrCancel, AuthPromise(a))
  {
    hide Next, Init, Drops;
    var begun := FreshRun(k);
    var ready := GatewayRun(begun, k);
    run, a := CancelDrops(ready, k, 2, entry);
  }
}
