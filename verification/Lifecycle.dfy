/** The order of session events on the manager's queue, what `recv_event` returns, and the manager's
    session map. */
module Lifecycle {
  import opened Foundation
  import opened Paths
  import opened Node
  import opened Growth

  // ----- order on the queue

  ghost predicate StartedAt(sent: seq<NetworkEvent>, i: nat, k: Key) {
    i < |sent| && sent[i] == SessionStarted(k)
  }

  ghost predicate AbortedAt(sent: seq<NetworkEvent>, i: nat, k: Key) {
    i < |sent| && sent[i].SessionAborted? && sent[i].session == k
  }

  ghost predicate StartedBefore(sent: seq<NetworkEvent>, n: nat, k: Key) {
    exists i: nat :: i < n && StartedAt(sent, i, k)
  }

  ghost predicate AbortedBefore(sent: seq<NetworkEvent>, n: nat, k: Key) {
    exists i: nat :: i < n && AbortedAt(sent, i, k)
  }

  /** The event may come after `n` events: a session starts once, aborts once and after its start, and
      fetches after its start. */
  ghost predicate InOrder(sent: seq<NetworkEvent>, n: nat, event: NetworkEvent) {
    match event
    case SessionStarted(k) => !StartedBefore(sent, n, k) && !AbortedBefore(sent, n, k)
    case SessionAborted(k, _) => StartedBefore(sent, n, k) && !AbortedBefore(sent, n, k)
    case Fetch(k, _, _) => StartedBefore(sent, n, k)
    case _ => true
  }

  ghost predicate Ordered(sent: seq<NetworkEvent>) {
    forall n :: 0 <= n < |sent| ==> InOrder(sent, n, sent[n])
  }

  /** A session that was announced has its start on the queue. */
  ghost predicate Announces(sent: seq<NetworkEvent>, phases: map<Key, Phase>) {
    forall k :: k in phases && phases[k] != Produced ==> StartedBefore(sent, |sent|, k)
  }

  lemma InOrderExtended(sent: seq<NetworkEvent>, more: seq<NetworkEvent>, n: nat, event: NetworkEvent)
    requires n <= |sent| && sent <= more && InOrder(sent, n, event)
    ensures InOrder(more, n, event)
  {
    forall k, i: nat | i < n ensures StartedAt(more, i, k) <==> StartedAt(sent, i, k) {
    }
    forall k, i: nat | i < n ensures AbortedAt(more, i, k) <==> AbortedAt(sent, i, k) {
    }
  }

  /** One more event in order keeps the queue ordered. */
  lemma OrderedSend(sent: seq<NetworkEvent>, event: NetworkEvent, phases: map<Key, Phase>)
    requires Ordered(sent) && Announces(sent, phases) && InOrder(sent, |sent|, event)
    ensures Ordered(sent + [event]) && Announces(sent + [event], phases)
    ensures event.SessionStarted? ==> StartedBefore(sent + [event], |sent| + 1, event.session)
  {
    var more := sent + [event];
    forall n | 0 <= n < |more| ensures InOrder(more, n, more[n]) {
      InOrderExtended(sent, more, n, more[n]);
    }
    forall k | StartedBefore(sent, |sent|, k) ensures StartedBefore(more, |more|, k) {
      var i: nat :| i < |sent| && StartedAt(sent, i, k);
      assert StartedAt(more, i, k);
    }
    if event.SessionStarted? {
      assert StartedAt(more, |sent|, event.session);
    }
  }

  ghost predicate QueueOrdered(s: State) {
    Ordered(s.sent) && Announces(s.sent, s.phases)
  }

  /** What the phase of a session says about its events. */
  lemma PhaseOfEvents(s: State, k: Key)
    requires QueueValid(s.sent, s.auths, s.fetches, s.phases)
    ensures StartedBefore(s.sent, |s.sent|, k) ==> k in s.phases && s.phases[k] != Produced
    ensures AbortedBefore(s.sent, |s.sent|, k) ==> k in s.phases && s.phases[k] == Ended
  {
    if StartedBefore(s.sent, |s.sent|, k) {
      var i: nat :| i < |s.sent| && StartedAt(s.sent, i, k);
      assert EventValid(s.sent[i], s.auths, s.fetches, s.phases);
    }
    if AbortedBefore(s.sent, |s.sent|, k) {
      var i: nat :| i < |s.sent| && AbortedAt(s.sent, i, k);
      assert EventValid(s.sent[i], s.auths, s.fetches, s.phases);
    }
  }

  lemma NetKeepsOrder(s: State, step: Step, s': State)
    requires QueueOrdered(s) && TasksValid(s) && NetNext(s, step, s')
    ensures QueueOrdered(s')
  {
    if step.NetAnnounce? {
      PhaseOfEvents(s, step.session);
      OrderedSend(s.sent, SessionStarted(step.session), s.phases);
    }
  }

  lemma SessionKeepsOrder(s: State, step: Step, s': State)
    requires QueueOrdered(s) && TasksValid(s) && SessionNext(s, step, s')
    ensures QueueOrdered(s')
  {
    if step.RecvAbort? {
      PhaseOfEvents(s, step.session);
      OrderedSend(s.sent, SessionAborted(step.session, step.reason), s.phases);
    }
  }

  lemma FetchKeepsOrder(s: State, step: Step, s': State)
    requires QueueOrdered(s) && TasksValid(s) && FetchNext(s, step, s')
    ensures QueueOrdered(s')
  {
    hide FetchNext;
    FetchFrame(s, step, s');
    var f := FetchMovesOne(s, step, s');
    if s'.sent != s.sent {
      OrderedSend(s.sent, Fetch(s.fetches[f].session, s.fetches[f].swiss, f), s.phases);
    }
  }

  lemma OtherKeepsOrder(s: State, step: Step, s': State)
    requires QueueOrdered(s)
    requires GatewayNext(s, step, s') || ManagerNext(s, step, s') || ChannelNext(s, step, s') || PortalNext(s, step, s')
    ensures QueueOrdered(s')
  {
    hide GatewayNext, ManagerNext, ChannelNext, PortalNext;
    if GatewayNext(s, step, s') {
      GatewayFrame(s, step, s');
      GatewayAdds(s, step, s');
    } else if ManagerNext(s, step, s') {
      ManagerFrame(s, step, s');
      ManagerAdds(s, step, s');
    } else if ChannelNext(s, step, s') {
      ChannelFrame(s, step, s');
    } else {
      PortalFrame(s, step, s');
    }
    if |s'.sent| > |s.sent| {
      OrderedSend(s.sent, s'.sent[|s.sent|], s.phases);
      assert s'.sent == s.sent + [s'.sent[|s.sent|]];
    } else {
      assert s'.sent == s.sent;
    }
  }

  lemma {:induction false} AlwaysOrdered(run: Run, i: nat)
    requires IsRun(run) && i < |run.states|
    ensures QueueOrdered(run.states[i])
  {
    hide NetNext, SessionNext, FetchNext, GatewayNext, ManagerNext, ChannelNext, PortalNext;
    if i == 0 {
    } else {
      AlwaysOrdered(run, i - 1);
      AlwaysValid(run, i - 1);
      var s, step, s' := run.states[i - 1], run.steps[i - 1], run.states[i];
      if NetNext(s, step, s') {
        NetKeepsOrder(s, step, s');
      } else if SessionNext(s, step, s') {
        SessionKeepsOrder(s, step, s');
      } else if FetchNext(s, step, s') {
        FetchKeepsOrder(s, step, s');
      } else {
        OtherKeepsOrder(s, step, s');
      }
    }
  }

  // ----- the end of a session's loop

  /** The step ends the loop of session `k`. */
  predicate EndsLoop(step: Step, k: Key) {
    (step.RecvAbort? || step.LoopEnd?) && step.session == k
  }

  /** The step is one of that loop's own. */
  predicate IsOfLoop(step: Step, k: Key) {
    (step.RecvFetch? || step.RecvAbort? || step.LoopEnd?) && step.session == k
  }

  lemma LoopStep(s: State, step: Step, s': State, k: Key)
    requires (NetNext(s, step, s') || SessionNext(s, step, s')) && s.phases.Keys == s.exports.Keys
    ensures IsOfLoop(step, k) ==> k in s.phases && s.phases[k] == Running
    ensures EndsLoop(step, k) ==> k in s'.phases && s'.phases[k] == Ended
    ensures k in s.phases && s.phases[k] == Ended ==> k in s'.phases && s'.phases[k] == Ended
    ensures k in s'.phases && s'.phases[k] == Ended ==> EndsLoop(step, k) || (k in s.phases && s.phases[k] == Ended)
  {
  }

  lemma OtherLoopStep(s: State, step: Step, s': State, k: Key)
    requires FetchNext(s, step, s') || GatewayNext(s, step, s') || ManagerNext(s, step, s')
             || ChannelNext(s, step, s') || PortalNext(s, step, s')
    ensures !IsOfLoop(step, k) && s'.phases == s.phases
  {
    assert !IsOfLoop(step, k);
    hide FetchNext, GatewayNext, ManagerNext, ChannelNext, PortalNext;
    if FetchNext(s, step, s') {
      FetchFrame(s, step, s');
    } else if GatewayNext(s, step, s') {
      GatewayFrame(s, step, s');
    } else if ManagerNext(s, step, s') {
      ManagerFrame(s, step, s');
    } else if ChannelNext(s, step, s') {
      ChannelFrame(s, step, s');
    } else {
      PortalFrame(s, step, s');
    }
  }

  lemma PhaseStep(s: State, step: Step, s': State, k: Key)
    requires Next(s, step, s') && s.phases.Keys == s.exports.Keys
    ensures IsOfLoop(step, k) ==> k in s.phases && s.phases[k] == Running
    ensures EndsLoop(step, k) ==> k in s'.phases && s'.phases[k] == Ended
    ensures k in s.phases && s.phases[k] == Ended ==> k in s'.phases && s'.phases[k] == Ended
    ensures k in s'.phases && s'.phases[k] == Ended ==> EndsLoop(step, k) || (k in s.phases && s.phases[k] == Ended)
  {
    hide NetNext, SessionNext, FetchNext, GatewayNext, ManagerNext, ChannelNext, PortalNext;
    if NetNext(s, step, s') || SessionNext(s, step, s') {
      LoopStep(s, step, s', k);
    } else {
      OtherLoopStep(s, step, s', k);
    }
  }

  /** A session's loop has ended exactly if one of its steps ended it. */
  lemma {:induction false} EndedIff(run: Run, i: nat, k: Key)
    requires IsRun(run) && i < |run.states|
    ensures k in run.states[i].phases && run.states[i].phases[k] == Ended <==>
            exists h :: 0 <= h < i && EndsLoop(run.steps[h], k)
  {
    hide Next, EndsLoop;
    if i == 0 {
    } else {
      EndedIff(run, i - 1, k);
      AlwaysValid(run, i - 1);
      PhaseStep(run.states[i - 1], run.steps[i - 1], run.states[i], k);
    }
  }

  /** It ends once and receives nothing after; and a fetch task is aborted only after its session's loop has ended. */
  lemma LoopEndsOnce(run: Run, j: nat, k: Key)
    requires IsRun(run) && j < |run.steps|
    ensures IsOfLoop(run.steps[j], k) ==> forall h :: 0 <= h < j ==> !EndsLoop(run.steps[h], k)
    ensures run.steps[j].FetchAbort? ==>
              var f := run.steps[j].fetch;
              && f < |run.states[j].fetches|
              && exists h :: 0 <= h < j && EndsLoop(run.steps[h], run.states[j].fetches[f].session)
  {
    hide EndsLoop, IsOfLoop;
    EndedIff(run, j, k);
    AlwaysValid(run, j);
    PhaseStep(run.states[j], run.steps[j], run.states[j + 1], k);
    if run.steps[j].FetchAbort? {
      AbortsEnded(run.states[j], run.steps[j], run.states[j + 1]);
      EndedIff(run, j, run.states[j].fetches[run.steps[j].fetch].session);
    }
  }

  lemma AbortsEnded(s: State, step: Step, s': State)
    requires Next(s, step, s') && step.FetchAbort?
    ensures step.fetch < |s.fetches| && s.fetches[step.fetch].session in s.phases
    ensures s.phases[s.fetches[step.fetch].session] == Ended
  {
    assert FetchNext(s, step, s');
  }

  // ----- what recv_event returns

  function ReturnOf(event: NetworkEvent): seq<ChatResult> {
    match event
    case TaskFinished(result) => [result]
    case SessionStarted(k) => [Event(SessionStartedEvent(k))]
    case SessionAborted(k, reason) => [Event(SessionAbortedEvent(k, reason))]
    case _ => []
  }

  function Returns(events: seq<NetworkEvent>): seq<ChatResult> {
    if events == [] then [] else Returns(events[..|events| - 1]) + ReturnOf(events[|events| - 1])
  }

  function LiveAfter(events: seq<NetworkEvent>): set<Key> {
    if events == [] then {}
    else
      var live := LiveAfter(events[..|events| - 1]);
      match events[|events| - 1]
      case SessionStarted(k) => live + {k}
      case SessionAborted(k, _) => live - {k}
      case _ => live
  }

  ghost predicate Faithful(s: State) {
    && s.received <= |s.sent|
    && s.returned == Returns(s.sent[..s.received])
    && s.live == LiveAfter(s.sent[..s.received])
  }

  lemma ManagerKeepsFaithful(s: State, step: Step, s': State)
    requires Faithful(s) && ManagerNext(s, step, s')
    ensures Faithful(s')
  {
    if s'.received == s.received {
      assert s'.sent[..s.received] == s.sent[..s.received];
    } else {
      assert s'.sent[..s'.received][..s.received] == s.sent[..s.received];
    }
  }

  /** `recv_event` may be dropped at any await point, any number of times: what it returned over the whole
      run is still exactly the started, aborted and task-finished events it dequeued, in queue order, and
      the session map is what those events make it. */
  lemma {:induction false} CancelSafe(run: Run, i: nat)
    requires IsRun(run) && i < |run.states|
    ensures Faithful(run.states[i])
  {
    hide NetNext, SessionNext, FetchNext, GatewayNext, ManagerNext, ChannelNext, PortalNext;
    if i == 0 {
    } else {
      CancelSafe(run, i - 1);
      var s, step, s' := run.states[i - 1], run.steps[i - 1], run.states[i];
      if ManagerNext(s, step, s') {
        ManagerKeepsFaithful(s, step, s');
      } else {
        StepFrame(s, step, s');
        StepGrows(s, step, s');
        assert s'.sent[..s.received] == s.sent[..s.received];
      }
    }
  }

  // ----- what was reported is what is returned

  /** What a step reports: a netlayer a new session, a session's loop the peer's abort, a subtask its result. */
  function ReportOf(step: Step): seq<ChatResult> {
    match step
    case NetAnnounce(k) => [Event(SessionStartedEvent(k))]
    case RecvAbort(k, reason) => [Event(SessionAbortedEvent(k, reason))]
    case SubtaskFinished(result) => [result]
    case _ => []
  }

  function ReportsOf(steps: seq<Step>): seq<ChatResult> {
    if steps == [] then [] else ReportsOf(Front(steps)) + ReportOf(Last(steps))
  }

  lemma FetchReports(s: State, step: Step, s': State)
    requires FetchNext(s, step, s') || GatewayNext(s, step, s') || ChannelNext(s, step, s') || PortalNext(s, step, s')
    ensures ReportOf(step) == []
  {
  }

  lemma LoopReports(s: State, step: Step, s': State)
    requires NetNext(s, step, s') || SessionNext(s, step, s')
    ensures s'.sent == s.sent || (|s'.sent| == |s.sent| + 1 && s.sent <= s'.sent)
    ensures ReportOf(step) == if |s'.sent| > |s.sent| then ReturnOf(s'.sent[|s.sent|]) else []
  {
  }

  lemma ManagerReports(s: State, step: Step, s': State)
    requires ManagerNext(s, step, s')
    ensures s'.sent == s.sent || (|s'.sent| == |s.sent| + 1 && s.sent <= s'.sent)
    ensures ReportOf(step) == if |s'.sent| > |s.sent| then ReturnOf(s'.sent[|s.sent|]) else []
  {
  }

  lemma StepReports(s: State, step: Step, s': State)
    requires Next(s, step, s')
    ensures s'.sent == s.sent || (|s'.sent| == |s.sent| + 1 && s.sent <= s'.sent)
    ensures ReportOf(step) == if |s'.sent| > |s.sent| then ReturnOf(s'.sent[|s.sent|]) else []
  {
    hide NetNext, SessionNext, FetchNext, GatewayNext, ManagerNext, ChannelNext, PortalNext;
    StepFrame(s, step, s');
    if NetNext(s, step, s') || SessionNext(s, step, s') {
      LoopReports(s, step, s');
    } else if ManagerNext(s, step, s') {
      ManagerReports(s, step, s');
    } else {
      FetchReports(s, step, s');
      if FetchNext(s, step, s') {
        FetchAdds(s, step, s');
      } else if GatewayNext(s, step, s') {
        GatewayAdds(s, step, s');
      }
    }
  }

  lemma ReturnsPlus(events: seq<NetworkEvent>, event: NetworkEvent)
    ensures Returns(events + [event]) == Returns(events) + ReturnOf(event)
  {
    assert (events + [event])[..|events|] == events;
  }

  lemma {:induction false} ReturnsPrefix(events: seq<NetworkEvent>, n: nat)
    requires n <= |events|
    ensures Returns(events[..n]) <= Returns(events)
  {
    if n == |events| {
      assert events[..n] == events;
    } else {
      ReturnsPrefix(events[..|events| - 1], n);
      assert events[..|events| - 1][..n] == events[..n];
    }
  }

  /** The queue carries what was reported, in order. */
  lemma {:induction false} QueueReports(run: Run, i: nat)
    requires IsRun(run) && i < |run.states|
    ensures Returns(run.states[i].sent) == ReportsOf(run.steps[..i])
  {
    hide Next, ReturnOf, ReportOf;
    if i == 0 {
    } else {
      QueueReports(run, i - 1);
      var s, step, s' := run.states[i - 1], run.steps[i - 1], run.states[i];
      StepReports(s, step, s');
      assert Front(run.steps[..i]) == run.steps[..i - 1];
      if |s'.sent| > |s.sent| {
        ReturnsPlus(s.sent, s'.sent[|s.sent|]);
        assert s'.sent == s.sent + [s'.sent[|s.sent|]];
      }
    }
  }

  /** Over any run, what `recv_event` returned is what sessions and subtasks reported, in the order in which they did,
      with nothing left out; when the queue is empty, it is all of it. */
  lemma ReportsReturnedInOrder(run: Run, i: nat)
    requires IsRun(run) && i < |run.states|
    ensures var s := run.states[i];
            && s.returned <= ReportsOf(run.steps[..i])
            && (s.received == |s.sent| ==> s.returned == ReportsOf(run.steps[..i]))
  {
    hide Next;
    CancelSafe(run, i);
    QueueReports(run, i);
    var s := run.states[i];
    ReturnsPrefix(s.sent, s.received);
    assert s.received == |s.sent| ==> s.sent[..s.received] == s.sent;
  }

  // ----- the session map

  lemma BeforeNext(sent: seq<NetworkEvent>, n: nat, k: Key)
    requires n < |sent|
    ensures StartedBefore(sent, n + 1, k) <==> StartedBefore(sent, n, k) || sent[n] == SessionStarted(k)
    ensures AbortedBefore(sent, n + 1, k) <==> AbortedBefore(sent, n, k) || AbortedAt(sent, n, k)
  {
    assert StartedAt(sent, n, k) <==> sent[n] == SessionStarted(k);
  }

  lemma {:induction false} LiveAfterOrdered(sent: seq<NetworkEvent>, n: nat, k: Key)
    requires Ordered(sent) && n <= |sent|
    ensures k in LiveAfter(sent[..n]) <==> StartedBefore(sent, n, k) && !AbortedBefore(sent, n, k)
  {
    if n == 0 {
    } else {
      LiveAfterOrdered(sent, n - 1, k);
      var event := sent[n - 1];
      assert sent[..n][..n - 1] == sent[..n - 1];
      assert InOrder(sent, n - 1, event);
      BeforeNext(sent, n - 1, k);
    }
  }

  /** The manager's session map is always exactly the sessions dequeued as started and not yet dequeued as
      aborted. */
  lemma SessionMapExact(run: Run, i: nat, k: Key)
    requires IsRun(run) && i < |run.states|
    ensures var s := run.states[i];
            k in s.live <==> StartedBefore(s.sent, s.received, k) && !AbortedBefore(s.sent, s.received, k)
  {
    hide Next;
    CancelSafe(run, i);
    AlwaysOrdered(run, i);
    LiveAfterOrdered(run.states[i].sent, run.states[i].received, k);
  }
}
