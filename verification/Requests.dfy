/** What becomes of a connect request over a whole run: where it waits, who takes it, in which order, and who
    answers it. */
module Requests {
  import opened Foundation
  import opened Paths
  import opened Netlayers

  // ----- queues only grow

  ghost predicate LayerGrows(a: Layer, b: Layer) {
    a.transport == b.transport && a.queue <= b.queue && a.taken <= b.taken
  }

  ghost predicate LayersGrow(s: State, s': State) {
    && |s.layers| <= |s'.layers|
    && (forall l :: 0 <= l < |s.layers| ==> LayerGrows(s.layers[l], s'.layers[l]))
    && s.requests <= s'.requests && s.answers <= s'.answers
  }

  lemma ManagerGrowsLayers(s: State, step: Step, s': State)
    requires ManagerNext(s, step, s')
    ensures LayersGrow(s, s')
  {
  }

  lemma ServeGrowsLayers(s: State, step: Step, s': State)
    requires ServeNext(s, step, s')
    ensures LayersGrow(s, s')
  {
  }

  lemma OtherGrowsLayers(s: State, step: Step, s': State)
    requires LeaveNext(s, step, s') || SessionNext(s, step, s')
    ensures LayersGrow(s, s')
  {
  }

  lemma StepGrowsLayers(s: State, step: Step, s': State)
    requires Next(s, step, s')
    ensures LayersGrow(s, s')
  {
    hide ManagerNext, ServeNext, LeaveNext, SessionNext, LayersGrow;
    if ManagerNext(s, step, s') {
      ManagerGrowsLayers(s, step, s');
    } else if ServeNext(s, step, s') {
      ServeGrowsLayers(s, step, s');
    } else {
      OtherGrowsLayers(s, step, s');
    }
  }

  lemma GrowTwice(s: State, mid: State, s': State)
    requires LayersGrow(s, mid) && LayersGrow(mid, s')
    ensures LayersGrow(s, s')
  {
    assert forall l :: 0 <= l < |s.layers| ==>
        LayerGrows(s.layers[l], mid.layers[l]) && LayerGrows(mid.layers[l], s'.layers[l]);
  }

  lemma {:induction false} RunGrowsLayers(run: Run, i: nat, j: nat)
    requires IsRun(run) && i <= j < |run.states|
    ensures LayersGrow(run.states[i], run.states[j])
    decreases j - i
  {
    hide Next;
    if i == j {
    } else {
      RunGrowsLayers(run, i, j - 1);
      StepGrowsLayers(run.states[j - 1], run.steps[j - 1], run.states[j]);
      GrowTwice(run.states[i], run.states[j - 1], run.states[j]);
    }
  }

  // ----- every request waits in one place

  /** The request is at place `q` of the layer's queue. */
  ghost predicate QueuedAt(s: State, l: nat, q: nat, r: nat) {
    l < |s.layers| && q < |s.layers[l].queue| && s.layers[l].queue[q] == r
  }

  /** A request is at one place of one queue. */
  lemma OnePlace(s: State, l: nat, q: nat, m: nat, p: nat, r: nat)
    requires RequestsOk(s) && QueuedAt(s, l, q, r) && QueuedAt(s, m, p, r)
    ensures l == m && q == p && r < |s.requests| && s.requests[r] == Request(s.layers[l].transport, l)
  {
    assert QueueOk(l, s.layers[l], s.requests) && QueueOk(m, s.layers[m], s.requests);
  }

  lemma StaysQueued(s: State, s': State, l: nat, q: nat, r: nat)
    requires LayersGrow(s, s') && QueuedAt(s, l, q, r)
    ensures QueuedAt(s', l, q, r)
  {
    assert LayerGrows(s.layers[l], s'.layers[l]);
  }

  /** The request is in the queue of the layer it was sent to. */
  ghost predicate Queued(s: State, r: nat) {
    r < |s.requests| && exists q: nat :: QueuedAt(s, s.requests[r].layer, q, r)
  }

  ghost predicate AllQueued(s: State) {
    forall r: nat :: r < |s.requests| ==> Queued(s, r)
  }

  lemma StepKeepsQueued(s: State, step: Step, s': State)
    requires AllQueued(s) && Next(s, step, s') && LayersGrow(s, s')
    ensures AllQueued(s')
  {
    forall r: nat | r < |s'.requests| ensures Queued(s', r) {
      if r < |s.requests| {
        assert Queued(s, r);
        var q: nat :| QueuedAt(s, s.requests[r].layer, q, r);
        StaysQueued(s, s', s.requests[r].layer, q, r);
        assert QueuedAt(s', s'.requests[r].layer, q, r);
      } else {
        NewRequest(s, step, s');
        assert QueuedAt(s', s'.requests[r].layer, |s.layers[s'.requests[r].layer].queue|, r);
      }
    }
  }

  /** A request that is sent goes to the end of the registered layer's queue. */
  lemma NewRequest(s: State, step: Step, s': State)
    requires Next(s, step, s') && |s'.requests| > |s.requests|
    ensures step.RequestConnect? && step.transport in s.registered && s.registered[step.transport] < |s.layers|
    ensures var l := s.registered[step.transport];
            && |s'.requests| == |s.requests| + 1 && s'.requests[|s.requests|] == Request(step.transport, l)
            && QueuedAt(s', l, |s.layers[l].queue|, |s.requests|)
  {
  }

  /** Nothing that was sent is ever lost from its queue. */
  lemma {:induction false} AlwaysQueued(run: Run, i: nat)
    requires IsRun(run) && i < |run.states|
    ensures AllQueued(run.states[i])
  {
    hide Next;
    if i == 0 {
    } else {
      AlwaysQueued(run, i - 1);
      StepGrowsLayers(run.states[i - 1], run.steps[i - 1], run.states[i]);
      StepKeepsQueued(run.states[i - 1], run.steps[i - 1], run.states[i]);
    }
  }

  // ----- who takes it

  /** The step takes request `r` from the queue of layer `l`. */
  ghost predicate Takes(s: State, step: Step, s': State, l: nat, r: nat) {
    && step == TakeRequest(l) && l < |s.layers| && QueuedAt(s, l, s.layers[l].taken, r)
    && l < |s'.layers| && s'.layers[l].stage == Connecting(r)
  }

  /** Step `h` of the run takes request `r` from the queue of layer `l`. */
  ghost predicate TakesAt(run: Run, h: nat, l: nat, r: nat) {
    h < |run.steps| && h + 1 < |run.states| && Takes(run.states[h], run.steps[h], run.states[h + 1], l, r)
  }

  /** A layer takes one request at a time, the first that it has not taken. */
  lemma TakenStep(s: State, step: Step, s': State, l: nat)
    requires Next(s, step, s') && l < |s.layers|
    ensures l < |s'.layers|
    ensures s'.layers[l].taken ==
            if step == TakeRequest(l) then s.layers[l].taken + 1 else s.layers[l].taken
    ensures step == TakeRequest(l) ==>
              s.layers[l].taken < |s.layers[l].queue| && Takes(s, step, s', l, s.layers[l].queue[s.layers[l].taken])
  {
    hide ManagerNext, ServeNext, LeaveNext, SessionNext;
    if ServeNext(s, step, s') {
      ServeTaken(s, step, s', l);
    } else {
      OtherTaken(s, step, s', l);
    }
  }

  lemma ServeTaken(s: State, step: Step, s': State, l: nat)
    requires ServeNext(s, step, s') && l < |s.layers|
    ensures l < |s'.layers|
    ensures s'.layers[l].taken == if step == TakeRequest(l) then s.layers[l].taken + 1 else s.layers[l].taken
    ensures step == TakeRequest(l) ==>
              s.layers[l].taken < |s.layers[l].queue| && Takes(s, step, s', l, s.layers[l].queue[s.layers[l].taken])
  {
  }

  lemma OtherTaken(s: State, step: Step, s': State, l: nat)
    requires ManagerNext(s, step, s') || LeaveNext(s, step, s') || SessionNext(s, step, s')
    requires l < |s.layers|
    ensures l < |s'.layers| && s'.layers[l].taken == s.layers[l].taken && !step.TakeRequest?
  {
  }

  /** A request at place `q` was taken by a step of the run exactly if `taken` is past `q`. */
  lemma {:induction false} TakenIff(run: Run, j: nat, l: nat, q: nat, r: nat)
    requires IsRun(run) && j < |run.states| && QueuedAt(run.states[j], l, q, r)
    ensures q < run.states[j].layers[l].taken <==>
            exists h: nat :: h < j && TakesAt(run, h, l, r)
  {
    hide Next, Init, Takes, RequestsOk, LayersGrow;
    if j == 0 {
      NoLayers(run.states[0]);
    } else {
      var s, step, s' := run.states[j - 1], run.steps[j - 1], run.states[j];
      StepGrowsLayers(s, step, s');
      AlwaysRequestsOk(run, j);
      if QueuedAt(s, l, q, r) {
        TakenIff(run, j - 1, l, q, r);
        TakenStep(s, step, s', l);
        assert TakesAt(run, j - 1, l, r) <==> Takes(s, step, s', l, r);
        if TakesAt(run, j - 1, l, r) {
          TakesNext(run, j - 1, l, q, r);
        }
      } else {
        NotYetQueued(run, j, l, q, r);
      }
    }
  }

  lemma NoLayers(s: State)
    requires Init(s)
    ensures s.layers == []
  {
  }

  lemma TakesNext(run: Run, h: nat, l: nat, q: nat, r: nat)
    requires IsRun(run) && h < |run.steps| && QueuedAt(run.states[h], l, q, r)
    requires TakesAt(run, h, l, r)
    ensures q == run.states[h].layers[l].taken && run.steps[h] == TakeRequest(l)
  {
    hide Next, Init, RequestsOk;
    AlwaysRequestsOk(run, h);
    OnePlace(run.states[h], l, q, l, run.states[h].layers[l].taken, r);
  }

  /** What is queued only now was not taken before. */
  lemma NotYetQueued(run: Run, j: nat, l: nat, q: nat, r: nat)
    requires IsRun(run) && 0 < j < |run.states| && QueuedAt(run.states[j], l, q, r)
            && !QueuedAt(run.states[j - 1], l, q, r)
    ensures q >= run.states[j].layers[l].taken
    ensures forall h: nat :: h < j ==> !TakesAt(run, h, l, r)
  {
    hide Next, Init, RequestsOk;
    forall h: nat | h < j ensures !TakesAt(run, h, l, r) {
      if TakesAt(run, h, l, r) {
        RunGrowsLayers(run, h, j - 1);
        StaysQueued(run.states[h], run.states[j - 1], l, run.states[h].layers[l].taken, r);
        RunGrowsLayers(run, j - 1, j);
        StaysQueued(run.states[j - 1], run.states[j], l, run.states[h].layers[l].taken, r);
        AlwaysRequestsOk(run, j);
        OnePlace(run.states[j], l, q, l, run.states[h].layers[l].taken, r);
      }
    }
    NewPlace(run.states[j - 1], run.steps[j - 1], run.states[j], l, q, r);
    AlwaysRequestsOk(run, j - 1);
    TakenWithin(run.states[j - 1], l);
  }

  lemma TakenWithin(s: State, l: nat)
    requires RequestsOk(s)
    ensures l < |s.layers| ==> s.layers[l].taken <= |s.layers[l].queue|
  {
    assert l < |s.layers| ==> QueueOk(l, s.layers[l], s.requests);
  }

  lemma NewPlace(s: State, step: Step, s': State, l: nat, q: nat, r: nat)
    requires Next(s, step, s') && QueuedAt(s', l, q, r) && !QueuedAt(s, l, q, r)
    ensures l < |s.layers| && s'.layers[l].taken == s.layers[l].taken && q >= |s.layers[l].queue|
  {
    hide ManagerNext, ServeNext, LeaveNext, SessionNext;
    if ManagerNext(s, step, s') {
      ManagerQueues(s, step, s', l, q, r);
    } else {
      OtherQueues(s, step, s', l);
    }
  }

  lemma ManagerQueues(s: State, step: Step, s': State, l: nat, q: nat, r: nat)
    requires ManagerNext(s, step, s') && QueuedAt(s', l, q, r) && !QueuedAt(s, l, q, r)
    ensures l < |s.layers| && s'.layers[l].taken == s.layers[l].taken && q >= |s.layers[l].queue|
  {
  }

  lemma OtherQueues(s: State, step: Step, s': State, l: nat)
    requires ServeNext(s, step, s') || LeaveNext(s, step, s') || SessionNext(s, step, s')
    ensures |s'.layers| == |s.layers| && (l < |s.layers| ==> s'.layers[l].queue == s.layers[l].queue)
  {
  }

  // ----- who answers it

  /** The step answers request `r`. */
  ghost predicate AnswersNow(s: State, s': State, r: nat) {
    r in s'.answers && r !in s.answers
  }

  /** Only a layer that has the request in hand answers it. */
  lemma AnswererHolds(s: State, step: Step, s': State, r: nat) returns (m: nat)
    requires Next(s, step, s') && AnswersNow(s, s', r)
    ensures step == ConnectOk(m) || step == ConnectError(m)
    ensures m < |s.layers| && s.layers[m].stage == Connecting(r)
  {
    m := step.layer;
  }

  lemma AnswerStep(s: State, step: Step, s': State, l: nat, q: nat, r: nat)
    requires RequestsOk(s) && Next(s, step, s') && QueuedAt(s, l, q, r) && AnswersNow(s, s', r)
    ensures step == ConnectOk(l) || step == ConnectError(l)
  {
    var m := AnswererHolds(s, step, s', r);
    hide Next;
    assert QueueOk(m, s.layers[m], s.requests);
    OnePlace(s, l, q, m, s.layers[m].taken - 1, r);
  }

  /** The fate of a request that was sent: ever after it is at one fixed place of the queue of the layer that was
      registered for its transport when it was made, and in no other queue; it was taken exactly if that layer has
      taken past its place, by that layer and by no other; and only that layer ever answers it, once it took it. */
  lemma RequestFate(run: Run, i: nat, j: nat, transport: string) returns (l: nat, q: nat)
    requires IsRun(run) && i < j < |run.states| && run.steps[i] == RequestConnect(transport)
    requires |run.states[i + 1].requests| > |run.states[i].requests|
    ensures var (s, r) := (run.states[i], |run.states[i].requests|);
            && transport in s.registered && l == s.registered[transport] && l < |s.layers| && q == |s.layers[l].queue|
            && QueuedAt(run.states[j], l, q, r) && run.states[j].layers[l].transport == transport
            && (forall m: nat, p: nat :: QueuedAt(run.states[j], m, p, r) ==> m == l && p == q)
            && (q < run.states[j].layers[l].taken <==>
                  exists h: nat :: h < j && TakesAt(run, h, l, r))
            && (forall h: nat, m: nat :: h < j && TakesAt(run, h, m, r) ==> m == l)
            && (forall h | 0 <= h < j && AnswersNow(run.states[h], run.states[h + 1], r) ::
                  run.steps[h] == ConnectOk(l) || run.steps[h] == ConnectError(l))
            && (r in run.states[j].answers ==> q < run.states[j].layers[l].taken)
  {
    hide Next, Init, RequestsOk, Takes, AnswersNow, LayersGrow;
    var s, s', r := run.states[i], run.states[i + 1], |run.states[i].requests|;
    RequestGoesToRegistered(run, i, transport);
    l := s.registered[transport];
    q := |s.layers[l].queue|;
    RunGrowsLayers(run, i + 1, j);
    StaysQueued(s', run.states[j], l, q, r);
    AlwaysRequestsOk(run, j);
    forall m: nat, p: nat | QueuedAt(run.states[j], m, p, r) ensures m == l && p == q {
      OnePlace(run.states[j], l, q, m, p, r);
    }
    RequestOf(run, i, j, l, r);
    OnePlace(run.states[j], l, q, l, q, r);
    TakenIff(run, j, l, q, r);
    forall h: nat, m: nat | h < j && TakesAt(run, h, m, r) ensures m == l {
      TakesOwn(run, h, j, m, r);
    }
    forall h | 0 <= h < j && AnswersNow(run.states[h], run.states[h + 1], r)
      ensures run.steps[h] == ConnectOk(l) || run.steps[h] == ConnectError(l)
    {
      AnswersOwn(run, h, j, l, q, r);
    }
    if r in run.states[j].answers {
      AnsweredTaken(run.states[j], l, q, r);
    }
  }

  lemma RequestOf(run: Run, i: nat, j: nat, l: nat, r: nat)
    requires IsRun(run) && i < j < |run.states| && r == |run.states[i].requests| < |run.states[i + 1].requests|
    requires run.states[i + 1].requests[r].layer == l
    ensures r < |run.states[j].requests| && run.states[j].requests[r] == run.states[i + 1].requests[r]
  {
    hide Next, Init;
    RunGrowsLayers(run, i + 1, j);
  }

  lemma AnsweredTaken(s: State, l: nat, q: nat, r: nat)
    requires RequestsOk(s) && QueuedAt(s, l, q, r) && r in s.answers
    ensures q < s.layers[l].taken
  {
    assert AnswersOk(s.layers[l], s.answers);
  }

  lemma TakesOwn(run: Run, h: nat, j: nat, m: nat, r: nat)
    requires IsRun(run) && h < j < |run.states| && TakesAt(run, h, m, r)
    ensures m < |run.states[h].layers| && QueuedAt(run.states[j], m, run.states[h].layers[m].taken, r)
  {
    hide Next, Init;
    RunGrowsLayers(run, h, j);
    StaysQueued(run.states[h], run.states[j], m, run.states[h].layers[m].taken, r);
  }

  lemma AnswersOwn(run: Run, h: nat, j: nat, l: nat, q: nat, r: nat)
    requires IsRun(run) && h < j < |run.states| && QueuedAt(run.states[j], l, q, r)
    requires AnswersNow(run.states[h], run.states[h + 1], r)
    ensures run.steps[h] == ConnectOk(l) || run.steps[h] == ConnectError(l)
  {
    hide Next, Init, RequestsOk, LayersGrow;
    AlwaysRequestsOk(run, h);
    AlwaysQueued(run, h);
    AnswersKnown(run.states[h], run.steps[h], run.states[h + 1], r);
    var m := run.states[h].requests[r].layer;
    assert Queued(run.states[h], r);
    var p: nat :| QueuedAt(run.states[h], m, p, r);
    AnswerStep(run.states[h], run.steps[h], run.states[h + 1], m, p, r);
    RunGrowsLayers(run, h, j);
    StaysQueued(run.states[h], run.states[j], m, p, r);
    AlwaysRequestsOk(run, j);
    OnePlace(run.states[j], l, q, m, p, r);
  }

  lemma AnswersKnown(s: State, step: Step, s': State, r: nat)
    requires RequestsOk(s) && Next(s, step, s') && AnswersNow(s, s', r)
    ensures r < |s.requests|
  {
    var m := step.layer;
    assert QueueOk(m, s.layers[m], s.requests);
  }

  /** First in, first out: when a layer takes a request, it has taken before every earlier request sent to it. */
  lemma TakenInOrder(run: Run, h: nat, l: nat, r: nat, p: nat, earlier: nat) returns (before: nat)
    requires IsRun(run) && h < |run.steps| && TakesAt(run, h, l, r)
    requires QueuedAt(run.states[h], l, p, earlier) && earlier < r
    ensures before < h && TakesAt(run, before, l, earlier)
  {
    hide Next, Init;
    AlwaysRequestsOk(run, h);
    assert QueueOk(l, run.states[h].layers[l], run.states[h].requests);
    TakenIff(run, h, l, p, earlier);
    before :| before < h && TakesAt(run, before, l, earlier);
  }
}
