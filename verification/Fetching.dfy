/** Answering fetches: the registry cache against the uncached answer, and the one-shot channel between a
    fetch task and the manager. */
module Fetching {
  import opened Foundation
  import opened Node
  import opened Growth

  // ----- the cache refines the manager's answer

  /** Position `pos` of session `k` denotes what the manager resolves `swiss` to. */
  ghost predicate Answers(exports: Tables, data: map<Uuid, nat>, k: Key, swiss: Bytes, pos: nat) {
    Resolve(data, swiss).Some? && Denotes(exports, k, pos, Resolve(data, swiss).value)
  }

  ghost predicate RegistriesSound(registries: map<Key, map<Bytes, nat>>, exports: Tables, data: map<Uuid, nat>) {
    forall k, swiss :: k in registries && swiss in registries[k] ==>
      Answers(exports, data, k, swiss, registries[k][swiss])
  }

  ghost predicate TaskSound(t: FetchTask, exports: Tables, data: map<Uuid, nat>) {
    match t.stage
    case Answered(answer) => answer == Resolve(data, t.swiss)
    case Hooking(target, pos) =>
      Answers(exports, data, t.session, t.swiss, pos) && Resolve(data, t.swiss) == Some(target)
    case Caching(pos) => Answers(exports, data, t.session, t.swiss, pos)
    case Fulfilling(pos) => Answers(exports, data, t.session, t.swiss, pos)
    case _ => true
  }

  ghost predicate TasksSound(fetches: seq<FetchTask>, exports: Tables, data: map<Uuid, nat>) {
    forall f :: 0 <= f < |fetches| ==> TaskSound(fetches[f], exports, data)
  }

  ghost predicate SettlementSound(e: Settlement, fetches: seq<FetchTask>, exports: Tables, data: map<Uuid, nat>) {
    e.promise.FetchPromise? ==>
      var f := e.promise.fetch;
      && f < |fetches|
      && match e.outcome
         case Fulfilled(pos) => Answers(exports, data, fetches[f].session, fetches[f].swiss, pos)
         case Broken => Resolve(data, fetches[f].swiss) == None
  }

  ghost predicate LogSound(settled: seq<Settlement>, fetches: seq<FetchTask>, exports: Tables, data: map<Uuid, nat>) {
    forall i :: 0 <= i < |settled| ==> SettlementSound(settled[i], fetches, exports, data)
  }

  ghost predicate Sound(s: State) {
    && RegistriesSound(s.registries, s.exports, s.dataChannels)
    && TasksSound(s.fetches, s.exports, s.dataChannels)
    && LogSound(s.log.settled, s.fetches, s.exports, s.dataChannels)
  }

  /** Positions keep their meaning when tables and tasks grow. */
  lemma SoundGrows(s: State, fetches: seq<FetchTask>, exports: Tables)
    requires Sound(s) && TablesGrow(s.exports, exports) && FetchesGrow(s.fetches, fetches)
    ensures RegistriesSound(s.registries, exports, s.dataChannels)
    ensures TasksSound(s.fetches, exports, s.dataChannels)
    ensures LogSound(s.log.settled, fetches, exports, s.dataChannels)
  {
  }

  /** The task that a step moves on stays sound. */
  lemma MovedTaskSound(s: State, step: Step, s': State) returns (f: nat)
    requires Sound(s) && FetchNext(s, step, s') && TasksSound(s.fetches, s'.exports, s.dataChannels)
    ensures f < |s.fetches| && |s'.fetches| == |s.fetches|
    ensures s'.fetches == FetchTo(s.fetches, f, s'.fetches[f].stage)
    ensures TaskSound(s'.fetches[f], s'.exports, s.dataChannels)
  {
    hide LogSound;
    f := step.fetch;
    assert TaskSound(s.fetches[f], s'.exports, s.dataChannels);
  }

  lemma FetchKeepsTasksSound(s: State, step: Step, s': State)
    requires Sound(s) && FetchNext(s, step, s') && TasksSound(s.fetches, s'.exports, s.dataChannels)
    ensures TasksSound(s'.fetches, s'.exports, s.dataChannels)
  {
    var f := MovedTaskSound(s, step, s');
    hide FetchNext, Sound, TaskSound;
  }

  lemma FetchKeepsRegistriesSound(s: State, step: Step, s': State)
    requires Sound(s) && FetchNext(s, step, s')
    requires RegistriesSound(s.registries, s'.exports, s.dataChannels)
    ensures RegistriesSound(s'.registries, s'.exports, s.dataChannels)
  {
    hide LogSound, RegistriesSound;
    if step.FetchCache? {
      var t := s.fetches[step.fetch];
      assert TaskSound(t, s.exports, s.dataChannels) && s'.exports == s.exports;
      CachingSound(s.registries, s.exports, s.dataChannels, t.session, t.swiss, t.stage.cachePos);
    } else {
      assert s'.registries == s.registries;
    }
  }

  lemma CachingSound(registries: map<Key, map<Bytes, nat>>, exports: Tables, data: map<Uuid, nat>, k: Key, swiss: Bytes,
                    pos: nat)
    requires RegistriesSound(registries, exports, data) && k in registries && Answers(exports, data, k, swiss, pos)
    ensures RegistriesSound(registries[k := Cached(registries[k], swiss, pos)], exports, data)
  {
  }

  /** What a step of a fetch task writes in the log agrees with what the manager resolves. */
  lemma FetchKeepsLogSound(s: State, step: Step, s': State)
    requires Sound(s) && FetchNext(s, step, s')
    requires LogSound(s.log.settled, s'.fetches, s'.exports, s.dataChannels)
    ensures LogSound(s'.log.settled, s'.fetches, s'.exports, s.dataChannels)
  {
    hide RegistriesSound;
    if step.FetchFulfill? || step.FetchBreak? {
      assert TaskSound(s.fetches[step.fetch], s.exports, s.dataChannels) && s'.exports == s.exports;
    } else {
      assert s'.log.settled == s.log.settled;
    }
  }

  lemma FetchKeepsSound(s: State, step: Step, s': State)
    requires Sound(s) && FetchNext(s, step, s')
    ensures Sound(s')
  {
    hide FetchNext, RegistriesSound, TasksSound, LogSound;
    FetchGrows(s, step, s');
    SoundGrows(s, s'.fetches, s'.exports);
    FetchKeepsTasksSound(s, step, s');
    FetchKeepsRegistriesSound(s, step, s');
    FetchKeepsLogSound(s, step, s');
  }

  lemma ManagerKeepsSound(s: State, step: Step, s': State)
    requires Sound(s) && TasksValid(s) && ManagerNext(s, step, s')
    ensures Sound(s')
  {
    ManagerGrows(s, step, s');
    SoundGrows(s, s'.fetches, s'.exports);
    if step == RecvFetchRequest {
      assert EventValid(s.sent[s.received], s.auths, s.fetches, s.phases);
    }
  }

  /** What the steps of no fetch task and not of the manager can change of fetches, registries and the log. */
  lemma OtherLeavesFetches(s: State, step: Step, s': State)
    requires NetNext(s, step, s') || SessionNext(s, step, s') || GatewayNext(s, step, s')
             || ChannelNext(s, step, s') || PortalNext(s, step, s')
    ensures Appends(s.fetches, s'.fetches) && (|s'.fetches| > |s.fetches| ==> s'.fetches[|s.fetches|].stage == Asking)
    ensures forall k :: k in s'.registries ==>
              s'.registries[k] == map[] || (k in s.registries && s'.registries[k] == s.registries[k])
  {
    hide NetNext, SessionNext, GatewayNext, ChannelNext, PortalNext;
    if NetNext(s, step, s') {
      NetFrame(s, step, s');
      NetAdds(s, step, s');
    } else if SessionNext(s, step, s') {
      SessionFrame(s, step, s');
      SessionAdds(s, step, s');
    } else if GatewayNext(s, step, s') {
      GatewayFrame(s, step, s');
    } else if ChannelNext(s, step, s') {
      ChannelFrame(s, step, s');
    } else {
      PortalFrame(s, step, s');
    }
  }

  lemma OtherSettles(s: State, step: Step, s': State)
    requires NetNext(s, step, s') || SessionNext(s, step, s') || GatewayNext(s, step, s')
             || ChannelNext(s, step, s') || PortalNext(s, step, s')
    ensures Appends(s.log.settled, s'.log.settled)
    ensures |s'.log.settled| > |s.log.settled| ==> s'.log.settled[|s.log.settled|].promise.AuthPromise?
  {
    hide NetNext, SessionNext, GatewayNext, ChannelNext, PortalNext;
    if NetNext(s, step, s') {
      NetFrame(s, step, s');
    } else if SessionNext(s, step, s') {
      SessionFrame(s, step, s');
    } else if GatewayNext(s, step, s') {
      GatewayAdds(s, step, s');
    } else if ChannelNext(s, step, s') {
      ChannelFrame(s, step, s');
    } else {
      PortalFrame(s, step, s');
    }
  }

  lemma OtherKeepsSound(s: State, step: Step, s': State)
    requires Sound(s)
    requires NetNext(s, step, s') || SessionNext(s, step, s') || GatewayNext(s, step, s')
             || ChannelNext(s, step, s') || PortalNext(s, step, s')
    requires Grows(s, s')
    ensures Sound(s')
  {
    hide NetNext, SessionNext, GatewayNext, ChannelNext, PortalNext;
    OtherLeavesFetches(s, step, s');
    OtherSettles(s, step, s');
    SoundGrows(s, s'.fetches, s'.exports);
  }

  lemma StepKeepsSound(s: State, step: Step, s': State)
    requires Sound(s) && Valid(s) && Next(s, step, s')
    ensures Sound(s')
  {
    hide NetNext, SessionNext, FetchNext, GatewayNext, ManagerNext, ChannelNext, PortalNext;
    StepGrows(s, step, s');
    if FetchNext(s, step, s') {
      FetchKeepsSound(s, step, s');
    } else if ManagerNext(s, step, s') {
      ManagerKeepsSound(s, step, s');
    } else {
      OtherKeepsSound(s, step, s');
    }
  }

  lemma {:induction false} AlwaysSound(run: Run, i: nat)
    requires IsRun(run) && i < |run.states|
    ensures Sound(run.states[i])
  {
    hide Next;
    if i == 0 {
    } else {
      AlwaysSound(run, i - 1);
      AlwaysValid(run, i - 1);
      StepKeepsSound(run.states[i - 1], run.steps[i - 1], run.states[i]);
    }
  }

  /** How a fetch of `swiss` over session `k` ends: `b"gateway"` names the gateway, the sixteen bytes of a known id
      name its channel, and nothing else names anything. */
  ghost predicate EndsAs(exports: Tables, data: map<Uuid, nat>, k: Key, swiss: Bytes, outcome: Outcome) {
    if Spells(swiss, "gateway") then
      outcome.Fulfilled? && Denotes(exports, k, outcome.pos, Gateway)
    else if |swiss| == 16 && Uuid(swiss) in data then
      outcome.Fulfilled? && Denotes(exports, k, outcome.pos, ChannelRef(data[Uuid(swiss)]))
    else outcome == Broken
  }

  lemma AnswersEnd(exports: Tables, data: map<Uuid, nat>, k: Key, swiss: Bytes, pos: nat)
    ensures Answers(exports, data, k, swiss, pos) ==> EndsAs(exports, data, k, swiss, Fulfilled(pos))
    ensures Resolve(data, swiss) == None ==> EndsAs(exports, data, k, swiss, Broken)
  {
    SpellsGateway(swiss);
  }

  lemma SpellsGateway(swiss: Bytes)
    ensures Spells(swiss, "gateway") <==> swiss == GATEWAY_SWISS
  {
    if Spells(swiss, "gateway") {
      assert forall i :: 0 <= i < 7 ==> swiss[i] == GATEWAY_SWISS[i];
    }
  }

  /** In every interleaving, a fetch is fulfilled exactly when its swiss number names the gateway or a known channel,
      and then with a position that denotes that very object, and broken otherwise; every cached position denotes
      what its swiss number names. So the cache changes nothing of what the manager answers. */
  lemma CachedFetchRefinesUncached(run: Run, i: nat, e: Settlement, k: Key, swiss: Bytes)
    requires IsRun(run) && i < |run.states|
    ensures var s := run.states[i];
            k in s.registries && swiss in s.registries[k] ==>
              && EndsAs(s.exports, s.dataChannels, k, swiss, Fulfilled(s.registries[k][swiss]))
              && Answers(s.exports, s.dataChannels, k, swiss, s.registries[k][swiss])
    ensures var s := run.states[i];
            e in s.log.settled && e.promise.FetchPromise? ==>
              && e.promise.fetch < |s.fetches| && var t := s.fetches[e.promise.fetch];
              && EndsAs(s.exports, s.dataChannels, t.session, t.swiss, e.outcome)
              && (e.outcome.Fulfilled? <==> Resolve(s.dataChannels, t.swiss).Some?)
              && (e.outcome.Fulfilled? ==> Answers(s.exports, s.dataChannels, t.session, t.swiss, e.outcome.pos))
  {
    hide Next;
    AlwaysSound(run, i);
    var s := run.states[i];
    if k in s.registries && swiss in s.registries[k] {
      AnswersEnd(s.exports, s.dataChannels, k, swiss, s.registries[k][swiss]);
    }
    if e in s.log.settled && e.promise.FetchPromise? {
      var j :| 0 <= j < |s.log.settled| && s.log.settled[j] == e;
      assert SettlementSound(s.log.settled[j], s.fetches, s.exports, s.dataChannels);
      var t := s.fetches[e.promise.fetch];
      AnswersEnd(s.exports, s.dataChannels, t.session, t.swiss, if e.outcome.Fulfilled? then e.outcome.pos else 0);
    }
  }

  // ----- the one-shot channel

  ghost predicate RequestAt(sent: seq<NetworkEvent>, i: nat, f: nat) {
    i < |sent| && sent[i].Fetch? && sent[i].fetch == f
  }

  /** No fetch task asks twice. */
  ghost predicate AskedOnce(sent: seq<NetworkEvent>) {
    forall i: nat, j: nat, f: nat :: RequestAt(sent, i, f) && RequestAt(sent, j, f) ==> i == j
  }

  /** A queued request's task is waiting for it, or gone. */
  ghost predicate QueuedAwaited(sent: seq<NetworkEvent>, received: nat, fetches: seq<FetchTask>) {
    forall i: nat, f: nat :: received <= i && RequestAt(sent, i, f) ==>
      f < |fetches| && (fetches[f].stage == Waiting || fetches[f].stage == FetchDone)
  }

  /** A waiting task's request is still queued. */
  ghost predicate AwaitedQueued(sent: seq<NetworkEvent>, received: nat, fetches: seq<FetchTask>) {
    forall f :: 0 <= f < |fetches| && fetches[f].stage == Waiting ==>
      exists i: nat :: received <= i && RequestAt(sent, i, f)
  }

  ghost predicate OneShot(s: State) {
    && AskedOnce(s.sent)
    && QueuedAwaited(s.sent, s.received, s.fetches)
    && AwaitedQueued(s.sent, s.received, s.fetches)
  }

  /** Requests stay where they are when the queue grows by something else. */
  lemma OneShotExtended(s: State, sent: seq<NetworkEvent>)
    requires OneShot(s) && s.sent <= sent && |sent| <= |s.sent| + 1
    requires |sent| > |s.sent| ==> !sent[|s.sent|].Fetch?
    ensures AskedOnce(sent) && QueuedAwaited(sent, s.received, s.fetches) && AwaitedQueued(sent, s.received, s.fetches)
  {
    forall i: nat, f: nat {:trigger RequestAt(sent, i, f)} | RequestAt(sent, i, f) ensures RequestAt(s.sent, i, f) {
      assert i != |s.sent|;
    }
    forall f | 0 <= f < |s.fetches| && s.fetches[f].stage == Waiting
      ensures exists i: nat :: s.received <= i && RequestAt(sent, i, f)
    {
      var i: nat :| s.received <= i && RequestAt(s.sent, i, f);
      assert RequestAt(sent, i, f);
    }
  }

  /** A task that moves on without asking, and was not waiting or is gone, changes nothing. */
  lemma OneShotMoved(s: State, f: nat, stage: FetchStage)
    requires OneShot(s) && f < |s.fetches| && stage != Waiting
    requires stage == FetchDone || (s.fetches[f].stage != Waiting && s.fetches[f].stage != FetchDone)
    ensures QueuedAwaited(s.sent, s.received, FetchTo(s.fetches, f, stage))
    ensures AwaitedQueued(s.sent, s.received, FetchTo(s.fetches, f, stage))
  {
  }

  lemma MissKeepsOneShot(s: State, f: nat, s': State)
    requires OneShot(s) && TasksValid(s) && FetchNext(s, FetchMiss(f), s')
    ensures OneShot(s')
  {
    var n := |s.sent|;
    forall i: nat, g: nat {:trigger RequestAt(s'.sent, i, g)} | RequestAt(s'.sent, i, g)
      ensures if i == n then g == f else RequestAt(s.sent, i, g) && g != f
    {
      if i < n {
        assert EventValid(s.sent[i], s.auths, s.fetches, s.phases);
      }
    }
    forall g | 0 <= g < |s'.fetches| && s'.fetches[g].stage == Waiting
      ensures exists i: nat :: s'.received <= i && RequestAt(s'.sent, i, g)
    {
      if g == f {
        assert RequestAt(s'.sent, n, g);
      } else {
        var i: nat :| s.received <= i && RequestAt(s.sent, i, g);
        assert RequestAt(s'.sent, i, g);
      }
    }
  }

  lemma FetchKeepsOneShot(s: State, step: Step, s': State)
    requires OneShot(s) && TasksValid(s) && FetchNext(s, step, s')
    ensures OneShot(s')
  {
    if step.FetchMiss? {
      MissKeepsOneShot(s, step.fetch, s');
    } else {
      OneShotMoved(s, step.fetch, s'.fetches[step.fetch].stage);
    }
  }

  lemma ManagerKeepsOneShot(s: State, step: Step, s': State)
    requires OneShot(s) && ManagerNext(s, step, s')
    ensures OneShot(s')
  {
    OneShotExtended(s, s'.sent);
    if s.received < s'.received {
      assert s.sent[s.received].Fetch? ==> RequestAt(s.sent, s.received, s.sent[s.received].fetch);
      forall g | 0 <= g < |s'.fetches| && s'.fetches[g].stage == Waiting
        ensures exists i: nat :: s'.received <= i && RequestAt(s'.sent, i, g)
      {
        var i: nat :| s.received <= i && RequestAt(s.sent, i, g);
        assert i != s.received;
      }
    }
  }

  lemma OtherSendsNoFetch(s: State, step: Step, s': State)
    requires NetNext(s, step, s') || SessionNext(s, step, s') || GatewayNext(s, step, s')
             || ChannelNext(s, step, s') || PortalNext(s, step, s')
    ensures s'.received == s.received && Appends(s.sent, s'.sent)
    ensures |s'.sent| > |s.sent| ==> !s'.sent[|s.sent|].Fetch?
  {
    hide NetNext, SessionNext, GatewayNext, ChannelNext, PortalNext;
    if NetNext(s, step, s') {
      NetFrame(s, step, s');
      NetAdds(s, step, s');
    } else if SessionNext(s, step, s') {
      SessionFrame(s, step, s');
      SessionAdds(s, step, s');
    } else if GatewayNext(s, step, s') {
      GatewayFrame(s, step, s');
      GatewayAdds(s, step, s');
    } else if ChannelNext(s, step, s') {
      ChannelFrame(s, step, s');
    } else {
      PortalFrame(s, step, s');
    }
  }

  lemma OtherKeepsOneShot(s: State, step: Step, s': State)
    requires OneShot(s)
    requires NetNext(s, step, s') || SessionNext(s, step, s') || GatewayNext(s, step, s')
             || ChannelNext(s, step, s') || PortalNext(s, step, s')
    ensures OneShot(s')
  {
    hide NetNext, SessionNext, GatewayNext, ChannelNext, PortalNext;
    OtherLeavesFetches(s, step, s');
    OtherSendsNoFetch(s, step, s');
    OneShotExtended(s, s'.sent);
  }

  lemma StepKeepsOneShot(s: State, step: Step, s': State)
    requires OneShot(s) && Valid(s) && Next(s, step, s')
    ensures OneShot(s')
  {
    hide NetNext, SessionNext, FetchNext, GatewayNext, ManagerNext, ChannelNext, PortalNext;
    if FetchNext(s, step, s') {
      FetchKeepsOneShot(s, step, s');
    } else if ManagerNext(s, step, s') {
      ManagerKeepsOneShot(s, step, s');
    } else {
      OtherKeepsOneShot(s, step, s');
    }
  }

  /** In every interleaving each waiting fetch task has exactly one request, still queued, so no answer is
      lost, goes to another task or comes twice. */
  lemma {:induction false} AlwaysOneShot(run: Run, i: nat)
    requires IsRun(run) && i < |run.states|
    ensures OneShot(run.states[i])
  {
    hide Next;
    if i == 0 {
    } else {
      AlwaysOneShot(run, i - 1);
      AlwaysValid(run, i - 1);
      StepKeepsOneShot(run.states[i - 1], run.steps[i - 1], run.states[i]);
    }
  }
}
