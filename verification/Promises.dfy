/** Resolvers are linear: in every reachable state each one is in exactly one place. */
module Promises {
  import opened Foundation
  import opened Node
  import opened Growth

  /** Where a resolver can be: with its task, in the queued event `i`, in `recv_event`'s hand, settled or
      dropped as the `i`th. */
  datatype Place = AtTask | AtQueue(i: nat) | AtHand | AtSettled(i: nat) | AtDropped(i: nat)

  ghost predicate Holds(s: State, p: Promise, w: Place) {
    match w
    case AtTask => (
      match p
      case FetchPromise(f) => f < |s.fetches| && s.fetches[f].stage != FetchDone
      case AuthPromise(a) => a < |s.auths| && s.auths[a].stage == Checking)
    case AtQueue(i) =>
      s.received <= i < |s.sent| && s.sent[i].PortalRequest? && p == AuthPromise(s.sent[i].auth)
    case AtHand => s.hand.Some? && p == AuthPromise(s.hand.value.auth)
    case AtSettled(i) => i < |s.log.settled| && s.log.settled[i].promise == p
    case AtDropped(i) => i < |s.log.dropped| && s.log.dropped[i] == p
  }

  /** A fetch was received, or a gateway call was made, that carries this resolver. */
  ghost predicate Issued(s: State, p: Promise) {
    match p
    case FetchPromise(f) => f < |s.fetches|
    case AuthPromise(a) => a < |s.auths|
  }

  ghost predicate Linear(s: State) {
    && (forall p, w :: Holds(s, p, w) ==> Issued(s, p))
    && (forall p :: Issued(s, p) ==> exists w :: Holds(s, p, w))
    && (forall p, w, w' :: Holds(s, p, w) && Holds(s, p, w') ==> w == w')
  }

  ghost predicate Unmoved(s: State, s': State) {
    && (forall p :: Issued(s', p) <==> Issued(s, p))
    && (forall p, w :: Holds(s', p, w) <==> Holds(s, p, w))
  }

  /** Only `p` is issued or moved, and then it is at `w`. */
  ghost predicate MovedTo(s: State, s': State, p: Promise, w: Place) {
    && (forall q :: Issued(s', q) <==> q == p || Issued(s, q))
    && (forall q, x :: Holds(s', q, x) <==> if q == p then x == w else Holds(s, q, x))
  }

  lemma MovedKeepsLinear(s: State, s': State, p: Promise, w: Place)
    requires Linear(s) && MovedTo(s, s', p, w)
    ensures Linear(s')
  {
    forall q | Issued(s', q) ensures exists x :: Holds(s', q, x) {
      if q == p {
        assert Holds(s', q, w);
      } else {
        var x :| Holds(s, q, x);
        assert Holds(s', q, x);
      }
    }
  }

  lemma UnmovedKeepsLinear(s: State, s': State)
    requires Linear(s) && Unmoved(s, s')
    ensures Linear(s')
  {
    forall q | Issued(s', q) ensures exists x :: Holds(s', q, x) {
      var x :| Holds(s, q, x);
      assert Holds(s', q, x);
    }
  }

  /** Where settling puts the resolver. */
  function SettledPlace(s: State, ok: bool): Place {
    if ok then AtSettled(|s.log.settled|) else AtDropped(|s.log.dropped|)
  }

  lemma SessionMoves(s: State, step: Step, s': State)
    requires Linear(s) && SessionNext(s, step, s')
    ensures Linear(s')
  {
    if step.RecvFetch? {
      var p := FetchPromise(|s.fetches|);
      forall q, x ensures Holds(s', q, x) <==> if q == p then x == AtTask else Holds(s, q, x) {
        assert !Holds(s, p, x);
      }
      MovedKeepsLinear(s, s', p, AtTask);
    } else {
      assert Unmoved(s, s');
      UnmovedKeepsLinear(s, s');
    }
  }

  ghost predicate FetchSettles(step: Step) {
    step.FetchFulfill? || step.FetchBreak? || step.FetchAbort?
  }

  lemma FetchMoves(s: State, step: Step, s': State)
    requires Linear(s) && FetchNext(s, step, s') && FetchSettles(step)
    ensures Linear(s')
  {
    var p := FetchPromise(step.fetch);
    var w := SettledPlace(s, if step.FetchAbort? then false else step.ok);
    assert Holds(s, p, AtTask);
    forall q, x ensures Holds(s', q, x) <==> if q == p then x == w else Holds(s, q, x) {
      assert Holds(s, p, x) ==> x == AtTask;
    }
    MovedKeepsLinear(s, s', p, w);
  }

  lemma FetchStays(s: State, step: Step, s': State)
    requires Linear(s) && FetchNext(s, step, s') && !FetchSettles(step)
    ensures Linear(s')
  {
    hide Linear;
    assert Unmoved(s, s');
    UnmovedKeepsLinear(s, s');
  }

  lemma GatewayMoves(s: State, step: Step, s': State)
    requires Linear(s) && s.received <= |s.sent| && GatewayNext(s, step, s')
    ensures Linear(s')
  {
    if step.Sign? {
      assert Unmoved(s, s');
      UnmovedKeepsLinear(s, s');
    } else if step.CallAuthenticate? {
      var p := AuthPromise(|s.auths|);
      forall q, x ensures Holds(s', q, x) <==> if q == p then x == AtTask else Holds(s, q, x) {
        assert !Holds(s, p, x);
      }
      MovedKeepsLinear(s, s', p, AtTask);
    } else {
      var p := AuthPromise(step.auth);
      var w := if step.AuthReject? then SettledPlace(s, step.ok) else AtQueue(|s.sent|);
      assert Holds(s, p, AtTask);
      forall q, x ensures Holds(s', q, x) <==> if q == p then x == w else Holds(s, q, x) {
        assert Holds(s, p, x) ==> x == AtTask;
      }
      MovedKeepsLinear(s, s', p, w);
    }
  }

  lemma RequestMoves(s: State, s': State)
    requires Linear(s) && ManagerNext(s, RecvPortalRequest, s')
    ensures Linear(s')
  {
    var p := AuthPromise(s.sent[s.received].auth);
    assert Holds(s, p, AtQueue(s.received));
    forall q, x ensures Holds(s', q, x) <==> if q == p then x == AtHand else Holds(s, q, x) {
      assert Holds(s, p, x) ==> x == AtQueue(s.received);
    }
    MovedKeepsLinear(s, s', p, AtHand);
  }

  lemma GrantMoves(s: State, step: Step, s': State)
    requires Linear(s) && ManagerNext(s, step, s') && s.hand.Some? && (step.MgrFulfill? || step.MgrCancel?)
    ensures Linear(s')
  {
    var p := AuthPromise(s.hand.value.auth);
    var w := SettledPlace(s, step.MgrFulfill? && step.ok);
    assert Holds(s, p, AtHand);
    forall q, x ensures Holds(s', q, x) <==> if q == p then x == w else Holds(s, q, x) {
      assert Holds(s, p, x) ==> x == AtHand;
    }
    MovedKeepsLinear(s, s', p, w);
  }

  lemma ManagerMoves(s: State, step: Step, s': State)
    requires Linear(s) && ManagerNext(s, step, s') && step != RecvPortalRequest
    ensures Linear(s')
  {
    if s.hand.Some? && (step.MgrFulfill? || step.MgrCancel?) {
      GrantMoves(s, step, s');
    } else {
      hide Linear;
      assert Unmoved(s, s');
      UnmovedKeepsLinear(s, s');
    }
  }

  lemma OtherMoves(s: State, step: Step, s': State)
    requires Linear(s) && (NetNext(s, step, s') || ChannelNext(s, step, s') || PortalNext(s, step, s'))
    ensures Linear(s')
  {
    hide NetNext, ChannelNext, PortalNext, Linear;
    if NetNext(s, step, s') {
      NetFrame(s, step, s');
      NetAdds(s, step, s');
    } else if ChannelNext(s, step, s') {
      ChannelFrame(s, step, s');
    } else {
      PortalFrame(s, step, s');
    }
    assert Unmoved(s, s');
    UnmovedKeepsLinear(s, s');
  }

  lemma StepKeepsLinear(s: State, step: Step, s': State)
    requires Linear(s) && s.received <= |s.sent| && Next(s, step, s')
    ensures Linear(s')
  {
    hide NetNext, SessionNext, FetchNext, GatewayNext, ManagerNext, ChannelNext, PortalNext;
    if SessionNext(s, step, s') {
      SessionMoves(s, step, s');
    } else if FetchNext(s, step, s') {
      if FetchSettles(step) {
        FetchMoves(s, step, s');
      } else {
        FetchStays(s, step, s');
      }
    } else if GatewayNext(s, step, s') {
      GatewayMoves(s, step, s');
    } else if ManagerNext(s, step, s') {
      if step == RecvPortalRequest {
        RequestMoves(s, s');
      } else {
        ManagerMoves(s, step, s');
      }
    } else {
      OtherMoves(s, step, s');
    }
  }

  /** At every state of every run each resolver is in exactly one place. */
  lemma {:induction false} AlwaysLinear(run: Run, i: nat)
    requires IsRun(run) && i < |run.states|
    ensures Linear(run.states[i])
  {
    hide Next;
    if i == 0 {
    } else {
      AlwaysLinear(run, i - 1);
      AlwaysValid(run, i - 1);
      StepKeepsLinear(run.states[i - 1], run.steps[i - 1], run.states[i]);
    }
  }

  // ----- how authentications are settled

  ghost predicate PortalAt(s: State, a: nat, pos: nat) {
    && a < |s.auths| && s.auths[a].stage == Requested
    && s.auths[a].peerKey in s.portals
    && Denotes(s.exports, s.auths[a].session, pos, PortalRef(s.portals[s.auths[a].peerKey]))
  }

  ghost predicate AuthSettled(s: State, a: nat, outcome: Outcome) {
    match outcome
    case Fulfilled(pos) => PortalAt(s, a, pos)
    case Broken => a < |s.auths| && s.auths[a].stage == Rejected
  }

  ghost predicate AuthsSettled(s: State) {
    && (s.hand.Some? ==> PortalAt(s, s.hand.value.auth, s.hand.value.pos))
    && forall i :: 0 <= i < |s.log.settled| && s.log.settled[i].promise.AuthPromise? ==>
         AuthSettled(s, s.log.settled[i].promise.auth, s.log.settled[i].outcome)
  }

  lemma SettledGrows(s: State, s': State, a: nat, outcome: Outcome)
    requires Grows(s, s') && AuthSettled(s, a, outcome)
    requires s'.auths[a].stage == s.auths[a].stage
    ensures AuthSettled(s', a, outcome)
  {
  }

  lemma AuthsSettledGrows(s: State, s': State)
    requires AuthsSettled(s) && Grows(s, s')
    requires forall a :: 0 <= a < |s.auths| && s.auths[a].stage != Checking ==> s'.auths[a].stage == s.auths[a].stage
    ensures s.hand.Some? ==> PortalAt(s', s.hand.value.auth, s.hand.value.pos)
    ensures forall i :: 0 <= i < |s.log.settled| && s.log.settled[i].promise.AuthPromise? ==>
              AuthSettled(s', s.log.settled[i].promise.auth, s.log.settled[i].outcome)
  {
    if s.hand.Some? {
      SettledGrows(s, s', s.hand.value.auth, Fulfilled(s.hand.value.pos));
    }
    forall i | 0 <= i < |s.log.settled| && s.log.settled[i].promise.AuthPromise?
      ensures AuthSettled(s', s.log.settled[i].promise.auth, s.log.settled[i].outcome)
    {
      SettledGrows(s, s', s.log.settled[i].promise.auth, s.log.settled[i].outcome);
    }
  }

  lemma GatewaySettles(s: State, step: Step, s': State)
    requires AuthsSettled(s) && Grows(s, s') && GatewayNext(s, step, s')
    ensures AuthsSettled(s')
  {
    AuthsSettledGrows(s, s');
  }

  lemma ManagerSettles(s: State, step: Step, s': State)
    requires AuthsSettled(s) && TasksValid(s) && Grows(s, s') && ManagerNext(s, step, s')
    ensures AuthsSettled(s')
  {
    AuthsSettledGrows(s, s');
    if step == RecvPortalRequest {
      assert EventValid(s.sent[s.received], s.auths, s.fetches, s.phases);
    }
  }

  lemma OtherLeavesAuths(s: State, step: Step, s': State)
    requires NetNext(s, step, s') || SessionNext(s, step, s') || FetchNext(s, step, s') || ChannelNext(s, step, s')
             || PortalNext(s, step, s')
    ensures s'.auths == s.auths && s'.hand == s.hand
    ensures forall i :: 0 <= i < |s'.log.settled| && s'.log.settled[i].promise.AuthPromise? ==>
              i < |s.log.settled| && s'.log.settled[i] == s.log.settled[i]
  {
    hide NetNext, SessionNext, FetchNext, ChannelNext, PortalNext;
    if NetNext(s, step, s') {
      NetFrame(s, step, s');
    } else if SessionNext(s, step, s') {
      SessionFrame(s, step, s');
    } else if FetchNext(s, step, s') {
      FetchFrame(s, step, s');
      FetchAdds(s, step, s');
    } else if ChannelNext(s, step, s') {
      ChannelFrame(s, step, s');
    } else {
      PortalFrame(s, step, s');
    }
  }

  lemma OtherSettles(s: State, step: Step, s': State)
    requires AuthsSettled(s) && Grows(s, s')
    requires NetNext(s, step, s') || SessionNext(s, step, s') || FetchNext(s, step, s') || ChannelNext(s, step, s')
             || PortalNext(s, step, s')
    ensures AuthsSettled(s')
  {
    hide NetNext, SessionNext, FetchNext, ChannelNext, PortalNext;
    OtherLeavesAuths(s, step, s');
    AuthsSettledGrows(s, s');
  }

  lemma {:induction false} AlwaysAuthsSettled(run: Run, i: nat)
    requires IsRun(run) && i < |run.states|
    ensures AuthsSettled(run.states[i])
  {
    hide NetNext, SessionNext, FetchNext, GatewayNext, ManagerNext, ChannelNext, PortalNext;
    if i == 0 {
    } else {
      AlwaysAuthsSettled(run, i - 1);
      AlwaysValid(run, i - 1);
      var s, step, s' := run.states[i - 1], run.steps[i - 1], run.states[i];
      StepGrows(s, step, s');
      if GatewayNext(s, step, s') {
        GatewaySettles(s, step, s');
      } else if ManagerNext(s, step, s') {
        ManagerSettles(s, step, s');
      } else {
        OtherSettles(s, step, s');
      }
    }
  }

  /** No promise is settled twice or both settled and dropped. */
  lemma SettledAtMostOnce(run: Run, i: nat)
    requires IsRun(run) && i < |run.states|
    ensures var log := run.states[i].log;
            && (forall m, n :: 0 <= m < n < |log.settled| ==> log.settled[m].promise != log.settled[n].promise)
            && (forall m, n :: 0 <= m < n < |log.dropped| ==> log.dropped[m] != log.dropped[n])
            && (forall m, n :: 0 <= m < |log.settled| && 0 <= n < |log.dropped| ==>
                  log.settled[m].promise != log.dropped[n])
  {
    hide Next;
    AlwaysLinear(run, i);
    var s := run.states[i];
    forall m: nat, n: nat | m < n < |s.log.settled| ensures s.log.settled[m].promise != s.log.settled[n].promise {
      assert Holds(s, s.log.settled[m].promise, AtSettled(m)) && Holds(s, s.log.settled[n].promise, AtSettled(n));
    }
    forall m: nat, n: nat | m < n < |s.log.dropped| ensures s.log.dropped[m] != s.log.dropped[n] {
      assert Holds(s, s.log.dropped[m], AtDropped(m)) && Holds(s, s.log.dropped[n], AtDropped(n));
    }
    forall m: nat, n: nat | m < |s.log.settled| && n < |s.log.dropped|
      ensures s.log.settled[m].promise != s.log.dropped[n]
    {
      assert Holds(s, s.log.settled[m].promise, AtSettled(m)) && Holds(s, s.log.dropped[n], AtDropped(n));
    }
  }

  /** The step rejects call `a`, whose signature does not pass. */
  ghost predicate Rejects(s: State, step: Step, a: nat) {
    && step.AuthReject? && step.auth == a && a < |s.auths|
    && !VerifyStrict(s.ledger, s.auths[a].peerKey, s.auths[a].message, s.auths[a].signature)
  }

  lemma GatewayRejects(s: State, step: Step, s': State, a: nat)
    requires GatewayNext(s, step, s') && a < |s'.auths| && s'.auths[a].stage == Rejected
    ensures a < |s.auths| && (s.auths[a].stage == Rejected || Rejects(s, step, a))
  {
  }

  /** A call that was rejected had a signature that did not pass when it was checked. */
  lemma {:induction false} RejectedFailed(run: Run, i: nat, a: nat) returns (j: nat)
    requires IsRun(run) && i < |run.states| && a < |run.states[i].auths| && run.states[i].auths[a].stage == Rejected
    ensures j < i && Rejects(run.states[j], run.steps[j], a)
  {
    hide NetNext, SessionNext, FetchNext, GatewayNext, ManagerNext, ChannelNext, PortalNext;
    assert i > 0;
    var s, step, s' := run.states[i - 1], run.steps[i - 1], run.states[i];
    StepFrame(s, step, s');
    if GatewayNext(s, step, s') {
      GatewayRejects(s, step, s', a);
    }
    if a < |s.auths| && s.auths[a].stage == Rejected {
      j := RejectedFailed(run, i - 1, a);
    } else {
      j := i - 1;
    }
  }

  /** An authentication whose signature failed is never on the queue, and is only ever broken; one that was
      fulfilled got the portal of the key it verified, at a position of its own session. */
  lemma AuthenticationOutcome(run: Run, i: nat, a: nat, e: Settlement)
    requires IsRun(run) && i < |run.states| && a < |run.states[i].auths|
    ensures var s := run.states[i];
            && (s.auths[a].stage == Rejected ==>
                  forall j :: 0 <= j < |s.sent| && s.sent[j].PortalRequest? ==> s.sent[j].auth != a)
            && (e in s.log.settled && e.promise == AuthPromise(a) ==>
                  match e.outcome
                  case Broken => s.auths[a].stage == Rejected
                  case Fulfilled(pos) =>
                    && s.auths[a].stage == Requested && s.auths[a].peerKey in s.portals
                    && Denotes(s.exports, s.auths[a].session, pos, PortalRef(s.portals[s.auths[a].peerKey])))
  {
    hide Next;
    AlwaysValid(run, i);
    AlwaysAuthsSettled(run, i);
    var s := run.states[i];
    forall j | 0 <= j < |s.sent| && s.sent[j].PortalRequest? && s.sent[j].auth == a
      ensures s.auths[a].stage == Requested
    {
      assert EventValid(s.sent[j], s.auths, s.fetches, s.phases);
    }
  }
}
