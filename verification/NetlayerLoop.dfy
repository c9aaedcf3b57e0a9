/** `NetlayerManager` and the loops of its netlayers as one object, updated in place. Every method takes steps of
    the netlayer model alone. */
module NetlayerLoops {
  import opened Foundation
  import opened Paths
  import opened Netlayers
  import opened Requests

  /** What the `select!` of `manage_netlayer` gets. */
  datatype LayerInput = Accepted | AcceptFails | Requested | EndChanged

  /** The input ends the loop. */
  predicate Stops(input: LayerInput, changed: bool) {
    input == AcceptFails || (input == EndChanged && changed)
  }

  /** How many sessions the inputs let in. */
  function AcceptsIn(inputs: seq<LayerInput>): nat {
    if inputs == [] then 0 else AcceptsIn(Front(inputs)) + if Last(inputs) == Accepted then 1 else 0
  }

  /** How many requests the inputs take, of `waiting`. */
  function TakesIn(inputs: seq<LayerInput>, waiting: nat): (n: nat)
    ensures n <= waiting
  {
    if inputs == [] then 0
    else
      var n := TakesIn(Front(inputs), waiting);
      if Last(inputs) == Requested && n < waiting then n + 1 else n
  }

  /** What the inputs have made of a layer and of the number of sessions: every session let in or connected was
      announced and spawned. */
  ghost predicate Managed(start: Layer, before: nat, inputs: seq<LayerInput>, now: Layer, sessions: nat)
    requires start.taken <= |start.queue|
  {
    && now.stage == start.stage && now.queue == start.queue && now.seen == start.seen
    && now.accepts == start.accepts + AcceptsIn(inputs)
    && now.taken == start.taken + TakesIn(inputs, |start.queue| - start.taken)
    && start.connects <= now.connects <= start.connects + TakesIn(inputs, |start.queue| - start.taken)
    && var more := AcceptsIn(inputs) + now.connects - start.connects;
    && now.announced == start.announced + more && now.spawned == start.spawned + more && sessions == before + more
  }

  /** What one turn makes of them. */
  ghost predicate TurnMakes(was: Layer, count: nat, input: LayerInput, now: Layer, sessions: nat) {
    match input
    case Accepted =>
      && sessions == count + 1
      && now == was.(accepts := was.accepts + 1, announced := was.announced + 1, spawned := was.spawned + 1,
                     tasks := now.tasks)
    case Requested =>
      if was.taken == |was.queue| then now == was && sessions == count
      else
        || (sessions == count && now == was.(taken := was.taken + 1))
        || (sessions == count + 1
            && now == was.(taken := was.taken + 1, connects := was.connects + 1, announced := was.announced + 1,
                           spawned := was.spawned + 1, tasks := now.tasks))
    case _ => now == was && sessions == count
  }

  lemma ManagedOne(start: Layer, before: nat, inputs: seq<LayerInput>, input: LayerInput, was: Layer, now: Layer,
                   count: nat, sessions: nat)
    requires start.taken <= |start.queue| && Managed(start, before, inputs, was, count)
    requires TurnMakes(was, count, input, now, sessions)
    ensures Managed(start, before, inputs + [input], now, sessions)
  {
    assert Front(inputs + [input]) == inputs;
  }

  class NetlayerManager {
    var built: bool
    var flag: bool
    var version: nat
    var senderAlive: bool
    var registered: map<string, nat>
    var layers: seq<Layer>
    var sessions: seq<Session>
    var requests: seq<Request>
    var answers: seq<nat>

    function View(): State
      reads this
    {
      State(built, flag, version, senderAlive, registered, layers, sessions, requests, answers)
    }

    constructor ()
      ensures Init(View())
    {
      built, flag, version, senderAlive := false, false, 0, true;
      registered, layers, sessions, requests, answers := map[], [], [], [], [];
    }

    /** `NetlayerManager::register`: the transport's requests go to the new layer from now on. */
    method RegisterLayer(transport: string) returns (l: nat)
      requires !built
      modifies this`registered, this`layers
      ensures Next(old(View()), Register(transport), View())
      ensures l == |old(layers)| && registered == old(registered)[transport := l]
      ensures layers == old(layers) + [Layer(transport, Selecting, 0, [], 0, {}, 0, 0, 0, 0)]
    {
      l := |layers|;
      registered := registered[transport := l];
      layers := layers + [Layer(transport, Selecting, 0, [], 0, {}, 0, 0, 0, 0)];
      assert ManagerNext(old(View()), Register(transport), View());
    }

    /** The builder makes the manager: no layer is registered any more. */
    method Build()
      requires !built
      modifies this`built
      ensures Next(old(View()), Step.Build, View()) && built
    {
      built := true;
      assert ManagerNext(old(View()), Step.Build, View());
    }

    /** `ChatManager::end`: the end flag is raised if any loop can see it; otherwise the send fails. */
    method End() returns (ok: bool)
      requires built && senderAlive && !flag
      modifies this`flag, this`version
      ensures Next(old(View()), Step.End, View()) && ok == HasReceivers(old(View()))
      ensures flag == ok && version == if ok then old(version) + 1 else old(version)
    {
      ghost var before := View();
      ok := HasReceivers(View());
      if ok {
        flag, version := true, version + 1;
      }
      assert ManagerNext(before, Step.End, View());
    }

    /** The manager goes, and the sender of the end flag with it. */
    method DropSender()
      requires built
      modifies this`senderAlive
      ensures Next(old(View()), Step.DropSender, View()) && !senderAlive
    {
      senderAlive := false;
      assert ManagerNext(old(View()), Step.DropSender, View());
    }

    /** `NetlayerManager::request_connect`: the request's number, or `None` for the two errors. */
    method Request(transport: string) returns (request: Option<nat>)
      requires forall t :: t in registered ==> registered[t] < |layers|
      modifies this`requests, this`layers
      ensures Next(old(View()), RequestConnect(transport), View())
      ensures request.None? <==> transport !in registered || old(layers)[registered[transport]].stage.Left?
      ensures request.Some? ==>
                && request.value == |old(requests)| && var l := registered[transport];
                && layers == old(layers)[l := old(layers)[l].(queue := old(layers)[l].queue + [request.value])]
      ensures request.None? ==> layers == old(layers) && requests == old(requests)
    {
      ghost var before := View();
      request := None;
      if transport in registered {
        var l := registered[transport];
        var layer := layers[l];
        if !layer.stage.Left? {
          request := Some(|requests|);
          layers := layers[l := layer.(queue := layer.queue + [|requests|])];
          requests := requests + [Netlayers.Request(transport, l)];
        }
      }
      assert ManagerNext(before, RequestConnect(transport), View());
    }

    /** What follows the `select!` when it gave a session: it is announced, then its loop is spawned with a clone
        of the layer's receiver. */
    method Manage(l: nat) returns (ghost steps: seq<Step>)
      requires l < |layers| && layers[l].stage.InHand? && layers[l].stage.session < |sessions|
      modifies this`layers, this`sessions
      ensures Leads(Next, old(View()), steps, View())
      ensures var (n, layer) := (old(layers[l].stage.session), old(layers[l]));
              && sessions == old(sessions)[n := Session(l, layer.seen, Running)]
              && layers == old(layers)[l := layer.(stage := Selecting, tasks := layer.tasks + {n},
                                                   announced := layer.announced + 1, spawned := layer.spawned + 1)]
    {
      hide Next;
      ghost var start := View();
      var layer, n := layers[l], layers[l].stage.session;
      layers := layers[l := layer.(stage := Announced(n), announced := layer.announced + 1)];
      ghost var told := View();
      AnnounceStep(start, l);
      sessions := sessions[n := Session(l, layer.seen, Running)];
      layer := layers[l];
      layers := layers[l := layer.(stage := Selecting, tasks := layer.tasks + {n}, spawned := layer.spawned + 1)];
      SpawnStep(told, l);
      LeadsPlus(Next, start, [], start, Announce(l), told);
      LeadsPlus(Next, start, [] + [Announce(l)], told, Spawn(l), View());
      steps := [] + [Announce(l)] + [Spawn(l)];
    }

    /** A turn of `manage_netlayer` that accepts a session. */
    method AcceptSession(l: nat) returns (ghost steps: seq<Step>)
      requires l < |layers| && layers[l].stage == Selecting
      modifies this`layers, this`sessions
      ensures Leads(Next, old(View()), steps, View())
      ensures sessions == old(sessions) + [Session(l, old(layers[l].seen), Running)]
      ensures var layer := old(layers[l]);
              layers == old(layers)[l := layer.(accepts := layer.accepts + 1, announced := layer.announced + 1,
                                                spawned := layer.spawned + 1, tasks := layer.tasks + {|old(sessions)|})]
    {
      hide Next;
      ghost var start := View();
      var layer := layers[l];
      layers := layers[l := layer.(stage := InHand(|sessions|), accepts := layer.accepts + 1)];
      sessions := sessions + [Session(l, 0, Unspawned)];
      ghost var accepted := View();
      AcceptStep(start, l);
      LeadsPlus(Next, start, [], start, Accept(l), accepted);
      ghost var managing := Manage(l);
      LeadsConcat(Next, start, [] + [Accept(l)], accepted, managing, View());
      steps := [] + [Accept(l)] + managing;
      ReplaceLast(start.sessions, Session(l, 0, Unspawned), Session(l, layer.seen, Running));
    }

    /** A turn that takes the oldest request: it is answered once; a session, if it gave one, is managed. */
    method ServeRequest(l: nat) returns (connected: bool, ghost steps: seq<Step>)
      requires l < |layers| && layers[l].stage == Selecting && layers[l].taken < |layers[l].queue|
      modifies this`layers, this`sessions, this`answers
      ensures Leads(Next, old(View()), steps, View())
      ensures var layer := old(layers[l]);
              layers == old(layers)[l :=
                if connected
                then layer.(taken := layer.taken + 1, connects := layer.connects + 1, announced := layer.announced + 1,
                            spawned := layer.spawned + 1, tasks := layer.tasks + {|old(sessions)|})
                else layer.(taken := layer.taken + 1)]
      ensures answers == old(answers + [layers[l].queue[layers[l].taken]])
      ensures sessions == if connected then old(sessions + [Session(l, layers[l].seen, Running)]) else old(sessions)
    {
      hide Next;
      ghost var start := View();
      var layer := layers[l];
      var request := layer.queue[layer.taken];
      layer := layer.(stage := Connecting(request), taken := layer.taken + 1);
      layers := layers[l := layer];
      ghost var taken := View();
      TakeStep(start, l);
      LeadsPlus(Next, start, [], start, TakeRequest(l), taken);
      steps := [] + [TakeRequest(l)];
      connected := *;
      answers := answers + [request];
      if connected {
        layers := layers[l := layer.(stage := InHand(|sessions|), connects := layer.connects + 1)];
        sessions := sessions + [Session(l, 0, Unspawned)];
        ghost var open := View();
        ConnectOkStep(taken, l);
        LeadsPlus(Next, start, steps, taken, ConnectOk(l), open);
        ghost var managing := Manage(l);
        LeadsConcat(Next, start, steps + [ConnectOk(l)], open, managing, View());
        steps := steps + [ConnectOk(l)] + managing;
        ReplaceLast(start.sessions, Session(l, 0, Unspawned), Session(l, layer.seen, Running));
      } else {
        layers := layers[l := layer.(stage := Selecting)];
        ConnectErrorStep(taken, l);
        LeadsPlus(Next, start, steps, taken, ConnectError(l), View());
        steps := steps + [ConnectError(l)];
      }
    }

    /** The end branch of `manage_netlayer` and all that follows it: the session tasks are cancelled and joined one
        by one until none is left, and the loop returns. */
    method Shutdown(l: nat) returns (ghost steps: seq<Step>)
      requires l < |layers| && layers[l].stage == Selecting && Changed(View(), layers[l].seen)
      requires forall n :: n in layers[l].tasks ==> n < |sessions| && sessions[n].stage != Unspawned
      modifies this`layers, this`sessions
      ensures Leads(Next, old(View()), steps, View())
      ensures layers == old(layers)[l := old(layers[l]).(stage := Left(true), seen := version, tasks := {})]
      ensures |sessions| == |old(sessions)|
      ensures forall n :: 0 <= n < |sessions| ==>
                sessions[n] == if n in old(layers[l].tasks) then old(sessions)[n].(stage := Done) else old(sessions)[n]
    {
      hide Next;
      ghost var start := View();
      layers := layers[l := layers[l].(stage := Draining, seen := version)];
      EndStep(start, l);
      LeadsPlus(Next, start, [], start, EndBranch(l), View());
      steps := [] + [EndBranch(l)];
      while layers[l].tasks != {}
        invariant Leads(Next, start, steps, View())
        invariant |layers| == |start.layers| && |sessions| == |start.sessions|
        invariant layers[l].tasks <= start.layers[l].tasks
        invariant layers == start.layers[l := start.layers[l].(stage := Draining, seen := version,
                                                               tasks := layers[l].tasks)]
        invariant forall n :: 0 <= n < |sessions| ==>
                    sessions[n] == if n in start.layers[l].tasks && n !in layers[l].tasks
                                   then start.sessions[n].(stage := Done) else start.sessions[n]
        decreases layers[l].tasks
      {
        var n :| n in layers[l].tasks;
        ghost var before := View();
        ghost var more := JoinTask(l, n);
        LeadsConcat(Next, start, steps, before, more, View());
        steps := steps + more;
      }
      ghost var drained := View();
      layers := layers[l := layers[l].(stage := Left(true))];
      LeaveStep(drained, l);
      LeadsPlus(Next, start, steps, drained, Leave(l), View());
      steps := steps + [Leave(l)];
    }

    /** `session_tasks.join_next().await`: a cancelled task, if it has not ended by itself, ends and is joined. */
    method JoinTask(l: nat, n: nat) returns (ghost steps: seq<Step>)
      requires l < |layers| && layers[l].stage == Draining && n in layers[l].tasks
      requires n < |sessions| && sessions[n].stage != Unspawned
      modifies this`layers, this`sessions
      ensures Leads(Next, old(View()), steps, View())
      ensures sessions == old(sessions)[n := old(sessions)[n].(stage := Done)]
      ensures layers == old(layers)[l := old(layers)[l].(tasks := old(layers)[l].tasks - {n})]
    {
      hide Next;
      ghost var start := View();
      steps := [];
      if sessions[n].stage == Running {
        sessions := sessions[n := sessions[n].(stage := Done)];
        DoneStep(start, n);
        LeadsPlus(Next, start, steps, start, SessionDone(n), View());
        steps := steps + [SessionDone(n)];
      }
      ghost var over := View();
      layers := layers[l := layers[l].(tasks := layers[l].tasks - {n})];
      JoinStep(over, l, n);
      LeadsPlus(Next, start, steps, over, Join(l, n), View());
      steps := steps + [Join(l, n)];
    }

    /** A turn of the loop that does not end it. */
    method LayerTurn(l: nat, input: LayerInput) returns (ghost steps: seq<Step>)
      requires l < |layers| && layers[l].stage == Selecting && layers[l].taken <= |layers[l].queue|
      modifies this`layers, this`sessions, this`answers
      ensures Leads(Next, old(View()), steps, View()) && |layers| == |old(layers)|
      ensures layers == old(layers)[l := layers[l]]
      ensures TurnMakes(old(layers)[l], |old(sessions)|, input, layers[l], |sessions|)
      ensures layers[l].queue == old(layers)[l].queue
      ensures old(layers)[l].taken <= layers[l].taken <= |layers[l].queue|
      ensures answers == old(answers) + layers[l].queue[old(layers)[l].taken..layers[l].taken]
    {
      hide Next;
      steps := [];
      match input {
        case Accepted =>
          steps := AcceptSession(l);
        case Requested =>
          if layers[l].taken < |layers[l].queue| {
            var _, served := ServeRequest(l);
            steps := served;
          }
        case _ =>
      }
    }

    /** The turn that ends the loop. */
    method EndTurn(l: nat, input: LayerInput) returns (ghost steps: seq<Step>)
      requires TasksOk(View()) && l < |layers| && layers[l].stage == Selecting
      requires Stops(input, Changed(View(), layers[l].seen))
      modifies this`layers, this`sessions
      ensures Leads(Next, old(View()), steps, View()) && TasksOk(View()) && |sessions| == |old(sessions)|
      ensures if input == AcceptFails
              then layers == old(layers)[l := old(layers)[l].(stage := Left(false))] && sessions == old(sessions)
              else layers == old(layers)[l := old(layers)[l].(stage := Left(true), seen := version, tasks := {})]
                   && forall n :: 0 <= n < |sessions| && sessions[n].layer == l ==> sessions[n].stage == Done
    {
      hide Next, TasksOk;
      ghost var start := View();
      if input == AcceptFails {
        layers := layers[l := layers[l].(stage := Left(false))];
        FailStep(start, l);
        LeadsOne(Next, start, AcceptError(l), View());
        steps := [AcceptError(l)];
      } else {
        TasksSpawned(start, l);
        steps := Shutdown(l);
      }
      StretchKeepsTasks(start, steps, View());
      if input != AcceptFails {
        LeftMeansDone(View(), l);
      }
    }

    /** The loop of `manage_netlayer`, given what its `select!` gets. Up to the input that ends it, every session that
        is accepted or connected is announced and spawned, and every request that is taken is answered once, in order;
        then the loop leaves by a failure to accept, or by its end branch with every session of the layer done. */
    method ManageNetlayer(l: nat, inputs: seq<LayerInput>) returns (handled: nat, ghost steps: seq<Step>)
      requires TasksOk(View()) && l < |layers| && layers[l].stage == Selecting && layers[l].taken <= |layers[l].queue|
      modifies this`layers, this`sessions, this`answers
      ensures Leads(Next, old(View()), steps, View()) && TasksOk(View())
      ensures |layers| == |old(layers)| && layers == old(layers)[l := layers[l]]
      ensures var changed := Changed(old(View()), old(layers)[l].seen);
              && handled <= |inputs| && (forall i :: 0 <= i < handled ==> !Stops(inputs[i], changed))
              && (handled < |inputs| ==> Stops(inputs[handled], changed))
      ensures forall i :: 0 <= i < handled ==> inputs[i] != AcceptFails
      ensures handled < |inputs| ==>
                inputs[handled] == AcceptFails
                || (inputs[handled] == EndChanged && (old(layers)[l].seen != version || !senderAlive))
      ensures exists managed: Layer ::
                && Managed(old(layers)[l], |old(sessions)|, inputs[..handled], managed, |sessions|)
                && layers[l] == if handled == |inputs| then managed
                                else if inputs[handled] == AcceptFails then managed.(stage := Left(false))
                                else managed.(stage := Left(true), seen := version, tasks := {})
      ensures layers[l].queue == old(layers)[l].queue && old(layers)[l].taken <= layers[l].taken <= |layers[l].queue|
      ensures answers == old(answers) + layers[l].queue[old(layers)[l].taken..layers[l].taken]
      ensures layers[l].stage == Left(true) ==>
                forall n :: 0 <= n < |sessions| && sessions[n].layer == l ==> sessions[n].stage == Done
    {
      hide Next, ManagedUpTo, Managed, TasksOk;
      ghost var start := View();
      var changed := layers[l].seen != version || !senderAlive;
      ManagedNone(start, l);
      steps, handled := [], 0;
      while handled < |inputs| && !Stops(inputs[handled], changed)
        invariant handled <= |inputs| && (forall i :: 0 <= i < handled ==> !Stops(inputs[i], changed))
        invariant ManagedUpTo(start, l, inputs[..handled], View()) && Leads(Next, start, steps, View())
      {
        ghost var more := ManageTurn(l, inputs[..handled], inputs[handled], start, steps);
        assert inputs[..handled + 1] == inputs[..handled] + [inputs[handled]];
        steps, handled := steps + more, handled + 1;
      }
      ghost var before := View();
      ManagedMeans(start, l, inputs[..handled], before);
      if handled < |inputs| {
        ghost var more := EndTurn(l, inputs[handled]);
        LeadsConcat(Next, start, steps, before, more, View());
        steps := steps + more;
      }
    }

    /** A turn of the loop that goes on, after earlier ones. */
    method ManageTurn(l: nat, ghost inputs: seq<LayerInput>, input: LayerInput, ghost start: State,
                      ghost steps: seq<Step>)
      returns (ghost more: seq<Step>)
      requires ManagedUpTo(start, l, inputs, View()) && Leads(Next, start, steps, View())
      modifies this`layers, this`sessions, this`answers
      ensures ManagedUpTo(start, l, inputs + [input], View()) && Leads(Next, start, steps + more, View())
    {
      hide Next, ManagedUpTo, Managed, TurnMakes;
      ghost var before := View();
      ManagedMeans(start, l, inputs, before);
      more := LayerTurn(l, input);
      LeadsConcat(Next, start, steps, before, more, View());
      StretchKeepsTasks(before, more, View());
      ManagedMore(start, l, inputs, input, before, View());
    }
  }

  /** The same of the whole state, with the requests taken answered in order. */
  ghost predicate ManagedUpTo(start: State, l: nat, inputs: seq<LayerInput>, s: State) {
    && TasksOk(s) && l < |start.layers| == |s.layers| && start.layers[l].taken <= |start.layers[l].queue|
    && start.layers[l].stage == Selecting
    && s == start.(layers := start.layers[l := s.layers[l]], sessions := s.sessions, answers := s.answers)
    && Managed(start.layers[l], |start.sessions|, inputs, s.layers[l], |s.sessions|)
    && s.answers == start.answers + s.layers[l].queue[start.layers[l].taken..s.layers[l].taken]
  }

  lemma ManagedNone(start: State, l: nat)
    requires TasksOk(start) && l < |start.layers| && start.layers[l].taken <= |start.layers[l].queue|
    requires start.layers[l].stage == Selecting
    ensures ManagedUpTo(start, l, [], start)
  {
    hide TasksOk;
  }

  lemma ManagedMeans(start: State, l: nat, inputs: seq<LayerInput>, s: State)
    requires ManagedUpTo(start, l, inputs, s)
    ensures TasksOk(s) && l < |start.layers| == |s.layers| && start.layers[l].taken <= |start.layers[l].queue|
    ensures s == start.(layers := start.layers[l := s.layers[l]], sessions := s.sessions, answers := s.answers)
    ensures Managed(start.layers[l], |start.sessions|, inputs, s.layers[l], |s.sessions|)
    ensures s.layers[l].stage == Selecting && s.layers[l].seen == start.layers[l].seen
    ensures s.layers[l].queue == start.layers[l].queue
    ensures start.layers[l].taken <= s.layers[l].taken <= |s.layers[l].queue|
    ensures s.answers == start.answers + s.layers[l].queue[start.layers[l].taken..s.layers[l].taken]
  {
    hide TasksOk;
  }

  lemma ManagedMore(start: State, l: nat, inputs: seq<LayerInput>, input: LayerInput, s: State, s': State)
    requires ManagedUpTo(start, l, inputs, s) && TasksOk(s') && |s'.layers| == |s.layers|
    requires s' == s.(layers := s.layers[l := s'.layers[l]], sessions := s'.sessions, answers := s'.answers)
    requires TurnMakes(s.layers[l], |s.sessions|, input, s'.layers[l], |s'.sessions|)
    requires s'.layers[l].queue == s.layers[l].queue && s.layers[l].taken <= s'.layers[l].taken <= |s'.layers[l].queue|
    requires s'.answers == s.answers + s'.layers[l].queue[s.layers[l].taken..s'.layers[l].taken]
    ensures ManagedUpTo(start, l, inputs + [input], s')
  {
    hide TasksOk;
    ManagedMeans(start, l, inputs, s);
    ManagedOne(start.layers[l], |start.sessions|, inputs, input, s.layers[l], s'.layers[l], |s.sessions|,
               |s'.sessions|);
    var (queue, a, b, c) := (s.layers[l].queue, start.layers[l].taken, s.layers[l].taken, s'.layers[l].taken);
    assert queue[a..b] + queue[b..c] == queue[a..c];
  }

  lemma StretchKeepsTasks(s: State, steps: seq<Step>, s': State)
    requires Leads(Next, s, steps, s') && TasksOk(s)
    ensures TasksOk(s')
  {
    hide Next, TasksOk;
    forall a, step, b | TasksOk(a) && Next(a, step, b) ensures TasksOk(b) {
      StepKeepsTasks(a, step, b);
    }
    LeadsKeeps(Next, TasksOk, s, steps, s');
  }

  /** The tasks of a layer at its `select!` have all been spawned. */
  lemma TasksSpawned(s: State, l: nat)
    requires TasksOk(s) && l < |s.layers| && s.layers[l].stage == Selecting
    ensures forall n :: n in s.layers[l].tasks ==> n < |s.sessions| && s.sessions[n].stage != Unspawned
  {
    assert LayerOk(l, s.layers[l], s.sessions);
    forall n | n in s.layers[l].tasks ensures n < |s.sessions| && s.sessions[n].stage != Unspawned {
      assert SessionOk(n, s.sessions[n], s.layers);
    }
  }

  lemma LeftMeansDone(s: State, l: nat)
    requires TasksOk(s) && l < |s.layers| && s.layers[l].stage == Left(true)
    ensures forall n :: 0 <= n < |s.sessions| && s.sessions[n].layer == l ==> s.sessions[n].stage == Done
  {
    assert LayerOk(l, s.layers[l], s.sessions);
    forall n | 0 <= n < |s.sessions| && s.sessions[n].layer == l ensures s.sessions[n].stage == Done {
      assert SessionOk(n, s.sessions[n], s.layers);
    }
  }

  /** Wherever a method leaves netlayers that a run has led to, what every state of every run satisfies holds. */
  lemma StretchOfRun(run: Run, steps: seq<Step>, b: State) returns (longer: Run)
    requires IsRun(run) && Leads(Next, Last(run.states), steps, b)
    ensures IsRun(longer) && run.states <= longer.states && longer.steps == run.steps + steps
    ensures Last(longer.states) == b && FlagOk(b) && TasksOk(b) && AllCountsOk(b) && RequestsOk(b) && AllQueued(b)
  {
    hide Next;
    var states := Continues(Next, run.states, run.steps, steps, b);
    longer := Run(states, run.steps + steps);
    AlwaysEndable(longer, |longer.steps|);
    AlwaysCounts(longer, |longer.steps|);
    AlwaysRequestsOk(longer, |longer.steps|);
    AlwaysQueued(longer, |longer.steps|);
  }

  // ----- the steps of a layer, as the states they lead to

  lemma ReplaceLast(sessions: seq<Session>, added: Session, replaced: Session)
    ensures (sessions + [added])[|sessions| := replaced] == sessions + [replaced]
  {
  }

  lemma AcceptStep(s: State, l: nat)
    requires l < |s.layers| && s.layers[l].stage == Selecting
    ensures var layer := s.layers[l];
            Next(s, Accept(l), s.(sessions := s.sessions + [Session(l, 0, Unspawned)],
              layers := s.layers[l := layer.(stage := InHand(|s.sessions|), accepts := layer.accepts + 1)]))
  {
  }

  lemma TakeStep(s: State, l: nat)
    requires l < |s.layers| && s.layers[l].stage == Selecting && s.layers[l].taken < |s.layers[l].queue|
    ensures var layer := s.layers[l];
            Next(s, TakeRequest(l), s.(
              layers := s.layers[l := layer.(stage := Connecting(layer.queue[layer.taken]), taken := layer.taken + 1)]))
  {
  }

  lemma ConnectOkStep(s: State, l: nat)
    requires l < |s.layers| && s.layers[l].stage.Connecting?
    ensures var layer := s.layers[l];
            Next(s, ConnectOk(l), s.(
              sessions := s.sessions + [Session(l, 0, Unspawned)], answers := s.answers + [layer.stage.request],
              layers := s.layers[l := layer.(stage := InHand(|s.sessions|), connects := layer.connects + 1)]))
  {
  }

  lemma ConnectErrorStep(s: State, l: nat)
    requires l < |s.layers| && s.layers[l].stage.Connecting?
    ensures Next(s, ConnectError(l), s.(answers := s.answers + [s.layers[l].stage.request],
              layers := s.layers[l := s.layers[l].(stage := Selecting)]))
  {
  }

  lemma AnnounceStep(s: State, l: nat)
    requires l < |s.layers| && s.layers[l].stage.InHand?
    ensures var layer := s.layers[l];
            Next(s, Announce(l), s.(
              layers := s.layers[l := layer.(stage := Announced(layer.stage.session),
                                             announced := layer.announced + 1)]))
  {
  }

  lemma SpawnStep(s: State, l: nat)
    requires l < |s.layers| && s.layers[l].stage.Announced? && s.layers[l].stage.session < |s.sessions|
    ensures var layer := s.layers[l];
            Next(s, Spawn(l), s.(sessions := s.sessions[layer.stage.session := Session(l, layer.seen, Running)],
              layers := s.layers[l := layer.(stage := Selecting, tasks := layer.tasks + {layer.stage.session},
                                             spawned := layer.spawned + 1)]))
  {
  }

  lemma EndStep(s: State, l: nat)
    requires l < |s.layers| && s.layers[l].stage == Selecting && Changed(s, s.layers[l].seen)
    ensures Next(s, EndBranch(l), s.(layers := s.layers[l := s.layers[l].(stage := Draining, seen := s.version)]))
  {
  }

  lemma DoneStep(s: State, n: nat)
    requires n < |s.sessions| && s.sessions[n].stage == Running
    ensures Next(s, SessionDone(n), s.(sessions := s.sessions[n := s.sessions[n].(stage := Done)]))
  {
  }

  lemma JoinStep(s: State, l: nat, n: nat)
    requires l < |s.layers| && s.layers[l].stage == Draining && n in s.layers[l].tasks
    requires n < |s.sessions| && s.sessions[n].stage == Done
    ensures Next(s, Join(l, n), s.(layers := s.layers[l := s.layers[l].(tasks := s.layers[l].tasks - {n})]))
  {
  }

  lemma FailStep(s: State, l: nat)
    requires l < |s.layers| && s.layers[l].stage == Selecting
    ensures Next(s, AcceptError(l), s.(layers := s.layers[l := s.layers[l].(stage := Left(false))]))
  {
  }

  lemma LeaveStep(s: State, l: nat)
    requires l < |s.layers| && s.layers[l].stage == Draining && s.layers[l].tasks == {}
    ensures Next(s, Leave(l), s.(layers := s.layers[l := s.layers[l].(stage := Left(true))]))
  {
  }
}
