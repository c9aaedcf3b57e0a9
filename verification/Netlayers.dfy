/** Netlayer loops, the sessions they spawn, the connect requests they serve, and the end flag that stops them
    all. The flag is a watch channel: a version that a send advances, and for every receiver the version it
    has seen; a receiver's clone has seen what the receiver has. */
module Netlayers {
  import opened Foundation
  import opened Paths

  /** Where a netlayer's loop is: in `select!`; connecting for a request; with a session in hand; having
      announced it; joining its session tasks after the end flag; returned, by the end flag or otherwise. */
  datatype Stage =
    | Selecting
    | Connecting(request: nat)
    | InHand(session: nat)
    | Announced(session: nat)
    | Draining
    | Left(byEnd: bool)

  /** `queue` are the requests ever sent to the layer, of which `taken` were received; `tasks` its session
      tasks not yet joined. The counters say what the loop did so far. */
  datatype Layer = Layer(
    transport: string,
    stage: Stage,
    seen: nat,
    queue: seq<nat>,
    taken: nat,
    tasks: set<nat>,
    accepts: nat,
    connects: nat,
    announced: nat,
    spawned: nat)

  datatype SessionStage = Unspawned | Running | Done

  datatype Session = Session(layer: nat, seen: nat, stage: SessionStage)

  datatype Request = Request(transport: string, layer: nat)

  /** `registered` is `NetlayerManager.layers`; `answers` are the requests answered, in order. */
  datatype State = State(
    built: bool,
    flag: bool,
    version: nat,
    senderAlive: bool,
    registered: map<string, nat>,
    layers: seq<Layer>,
    sessions: seq<Session>,
    requests: seq<Request>,
    answers: seq<nat>)

  datatype Step =
    | Register(transport: string)
    | Build
    | End
    | DropSender
    | RequestConnect(transport: string)
    | Accept(layer: nat)
    | AcceptError(layer: nat)
    | TakeRequest(layer: nat)
    | ConnectOk(layer: nat)
    | ConnectError(layer: nat)
    | Announce(layer: nat)
    | Spawn(layer: nat)
    | EndBranch(layer: nat)
    | Join(layer: nat, session: nat)
    | Leave(layer: nat)
    | Kill(layer: nat)
    | SessionEndBranch(session: nat)
    | SessionDone(session: nat)

  ghost predicate Init(s: State) {
    s == State(false, false, 0, true, map[], [], [], [], [])
  }

  /** `end_flag.changed()` is ready. */
  predicate Changed(s: State, seen: nat) {
    seen != s.version || !s.senderAlive
  }

  /** The loop has not begun to leave. */
  predicate Serving(layer: Layer) {
    !layer.stage.Draining? && !layer.stage.Left?
  }

  predicate HasReceivers(s: State) {
    (exists l :: 0 <= l < |s.layers| && !s.layers[l].stage.Left?)
    || (exists n :: 0 <= n < |s.sessions| && s.sessions[n].stage == Running)
  }

  function WithLayer(s: State, l: nat, layer: Layer): seq<Layer>
    requires l < |s.layers|
  {
    s.layers[l := layer]
  }

  /** The builder, the manager's `end`, and `request_connect`. */
  ghost predicate ManagerNext(s: State, step: Step, s': State) {
    match step
    case Register(transport) =>
      && !s.built
      && s' == s.(registered := s.registered[transport := |s.layers|],
                  layers := s.layers + [Layer(transport, Selecting, 0, [], 0, {}, 0, 0, 0, 0)])
    case Build => !s.built && s' == s.(built := true)
    case End =>
      // a send on a channel without receivers fails and changes nothing
      && s.built && s.senderAlive && !s.flag
      && s' == if HasReceivers(s) then s.(flag := true, version := s.version + 1) else s
    case DropSender => s.built && s' == s.(senderAlive := false)
    case RequestConnect(transport) =>
      s' == if transport in s.registered && s.registered[transport] < |s.layers|
               && !s.layers[s.registered[transport]].stage.Left?
            then
              var l := s.registered[transport];
              var layer := s.layers[l];
              s.(requests := s.requests + [Request(transport, l)],
                 layers := WithLayer(s, l, layer.(queue := layer.queue + [|s.requests|])))
            else s
    case _ => false
  }

  /** A netlayer's `select!` and what follows it. */
  ghost predicate ServeNext(s: State, step: Step, s': State) {
    match step
    case Accept(l) =>
      && l < |s.layers| && var layer := s.layers[l];
      && layer.stage == Selecting
      && s' == s.(sessions := s.sessions + [Session(l, 0, Unspawned)],
                  layers := WithLayer(s, l, layer.(stage := InHand(|s.sessions|), accepts := layer.accepts + 1)))
    case TakeRequest(l) =>
      && l < |s.layers| && var layer := s.layers[l];
      && layer.stage == Selecting && layer.taken < |layer.queue|
      && s' == s.(layers := WithLayer(s, l, layer.(stage := Connecting(layer.queue[layer.taken]),
                                                   taken := layer.taken + 1)))
    case ConnectOk(l) =>
      && l < |s.layers| && var layer := s.layers[l];
      && layer.stage.Connecting?
      && s' == s.(sessions := s.sessions + [Session(l, 0, Unspawned)], answers := s.answers + [layer.stage.request],
                  layers := WithLayer(s, l, layer.(stage := InHand(|s.sessions|), connects := layer.connects + 1)))
    case ConnectError(l) =>
      && l < |s.layers| && var layer := s.layers[l];
      && layer.stage.Connecting?
      && s' == s.(answers := s.answers + [layer.stage.request],
                  layers := WithLayer(s, l, layer.(stage := Selecting)))
    case Announce(l) =>
      && l < |s.layers| && var layer := s.layers[l];
      && layer.stage.InHand?
      && s' == s.(layers := WithLayer(s, l, layer.(stage := Announced(layer.stage.session),
                                                   announced := layer.announced + 1)))
    case Spawn(l) =>
      && l < |s.layers| && var layer := s.layers[l];
      && layer.stage.Announced? && var n := layer.stage.session;
      && n < |s.sessions|
      && s' == s.(sessions := s.sessions[n := Session(l, layer.seen, Running)],
                  layers := WithLayer(s, l, layer.(stage := Selecting, tasks := layer.tasks + {n},
                                                   spawned := layer.spawned + 1)))
    case _ => false
  }

  /** How a netlayer's loop ends. */
  ghost predicate LeaveNext(s: State, step: Step, s': State) {
    match step
    case EndBranch(l) =>
      && l < |s.layers| && var layer := s.layers[l];
      && layer.stage == Selecting && Changed(s, layer.seen)
      && s' == s.(layers := WithLayer(s, l, layer.(stage := Draining, seen := s.version)))
    case Join(l, n) =>
      && l < |s.layers| && var layer := s.layers[l];
      && layer.stage == Draining && n in layer.tasks && n < |s.sessions| && s.sessions[n].stage == Done
      && s' == s.(layers := WithLayer(s, l, layer.(tasks := layer.tasks - {n})))
    case Leave(l) =>
      && l < |s.layers| && var layer := s.layers[l];
      && layer.stage == Draining && layer.tasks == {}
      && s' == s.(layers := WithLayer(s, l, layer.(stage := Left(true))))
    case AcceptError(l) =>
      && l < |s.layers| && var layer := s.layers[l];
      && layer.stage == Selecting
      && s' == s.(layers := WithLayer(s, l, layer.(stage := Left(false))))
    case Kill(l) =>
      // the task itself is dropped, with the netlayer manager
      && l < |s.layers| && var layer := s.layers[l];
      && !s.senderAlive && !layer.stage.Left?
      && s' == s.(layers := WithLayer(s, l, layer.(stage := Left(false))))
    case _ => false
  }

  /** A session's loop: its end branch, or its end for another reason, which can be that its netlayer cancelled
      it. */
  ghost predicate SessionNext(s: State, step: Step, s': State) {
    match step
    case SessionEndBranch(n) =>
      && n < |s.sessions| && var session := s.sessions[n];
      && session.stage == Running && Changed(s, session.seen)
      && s' == s.(sessions := s.sessions[n := session.(seen := s.version, stage := if s.flag then Done else Running)])
    case SessionDone(n) =>
      && n < |s.sessions| && s.sessions[n].stage == Running
      && s' == s.(sessions := s.sessions[n := s.sessions[n].(stage := Done)])
    case _ => false
  }

  ghost predicate Next(s: State, step: Step, s': State) {
    ManagerNext(s, step, s') || ServeNext(s, step, s') || LeaveNext(s, step, s') || SessionNext(s, step, s')
  }

  datatype Run = Run(states: seq<State>, steps: seq<Step>)

  ghost predicate IsRun(run: Run) {
    && |run.states| == |run.steps| + 1
    && Init(run.states[0])
    && forall i :: 0 <= i < |run.steps| ==> Next(run.states[i], run.steps[i], run.states[i + 1])
  }

  // ----- the end flag

  ghost predicate FlagOk(s: State) {
    && s.version == (if s.flag then 1 else 0)
    && (forall l :: 0 <= l < |s.layers| && Serving(s.layers[l]) ==> s.layers[l].seen == 0)
    && (forall n :: 0 <= n < |s.sessions| && s.sessions[n].stage == Running ==> s.sessions[n].seen == 0)
  }

  /** A layer's tasks are its sessions; a session in hand is its own and not yet spawned; a layer that left by
      its end branch has joined them all. */
  ghost predicate LayerOk(l: nat, layer: Layer, sessions: seq<Session>) {
    && (forall n :: n in layer.tasks ==> n < |sessions| && sessions[n].layer == l)
    && (layer.stage.InHand? || layer.stage.Announced? ==>
          layer.stage.session < |sessions| && sessions[layer.stage.session] == Session(l, 0, Unspawned))
    && (layer.stage == Left(true) ==> layer.tasks == {})
  }

  /** A running session is among its layer's tasks; one that is not spawned is in its layer's hand, or its layer
      is gone. */
  ghost predicate SessionOk(n: nat, session: Session, layers: seq<Layer>) {
    && session.layer < |layers|
    && match session.stage
       case Unspawned => layers[session.layer].stage in {InHand(n), Announced(n), Left(false)}
       case Running => n in layers[session.layer].tasks
       case Done => true
  }

  ghost predicate TasksOk(s: State) {
    && (forall l :: 0 <= l < |s.layers| ==> LayerOk(l, s.layers[l], s.sessions))
    && (forall n :: 0 <= n < |s.sessions| ==> SessionOk(n, s.sessions[n], s.layers))
  }

  lemma ManagerKeepsTasks(s: State, step: Step, s': State)
    requires TasksOk(s) && ManagerNext(s, step, s')
    ensures TasksOk(s')
  {
  }

  lemma ServeKeepsOwn(s: State, step: Step, s': State, l: nat)
    requires TasksOk(s) && ServeNext(s, step, s') && l == step.layer
    ensures l < |s.layers| && LayerOk(l, s'.layers[l], s'.sessions)
  {
    hide SessionOk;
    assert LayerOk(l, s.layers[l], s.sessions);
  }

  lemma ServeKeepsLayer(s: State, step: Step, s': State, l: nat)
    requires TasksOk(s) && ServeNext(s, step, s') && l < |s'.layers|
    ensures LayerOk(l, s'.layers[l], s'.sessions)
  {
    hide SessionOk;
    if l == step.layer {
      ServeKeepsOwn(s, step, s', l);
    } else {
      assert s'.layers[l] == s.layers[l] && LayerOk(l, s.layers[l], s.sessions);
      assert LayerOk(step.layer, s.layers[step.layer], s.sessions);
    }
  }

  lemma ServeKeepsSession(s: State, step: Step, s': State, n: nat)
    requires TasksOk(s) && ServeNext(s, step, s') && n < |s'.sessions|
    ensures SessionOk(n, s'.sessions[n], s'.layers)
  {
    assert n < |s.sessions| ==> SessionOk(n, s.sessions[n], s.layers);
  }

  lemma ServeKeepsTasks(s: State, step: Step, s': State)
    requires TasksOk(s) && ServeNext(s, step, s')
    ensures TasksOk(s')
  {
    hide ServeNext, LayerOk, SessionOk;
    forall l: nat | l < |s'.layers| ensures LayerOk(l, s'.layers[l], s'.sessions) {
      ServeKeepsLayer(s, step, s', l);
    }
    forall n: nat | n < |s'.sessions| ensures SessionOk(n, s'.sessions[n], s'.layers) {
      ServeKeepsSession(s, step, s', n);
    }
  }

  lemma LeaveKeepsTasks(s: State, step: Step, s': State)
    requires TasksOk(s) && LeaveNext(s, step, s')
    ensures TasksOk(s')
  {
  }

  lemma SessionKeepsTasks(s: State, step: Step, s': State)
    requires TasksOk(s) && SessionNext(s, step, s')
    ensures TasksOk(s')
  {
  }

  lemma ManagerKeepsFlag(s: State, step: Step, s': State)
    requires FlagOk(s) && ManagerNext(s, step, s')
    ensures FlagOk(s')
  {
  }

  lemma OtherKeepsFlag(s: State, step: Step, s': State)
    requires FlagOk(s) && (ServeNext(s, step, s') || LeaveNext(s, step, s') || SessionNext(s, step, s'))
    ensures FlagOk(s')
  {
  }

  lemma StepKeepsTasks(s: State, step: Step, s': State)
    requires TasksOk(s) && Next(s, step, s')
    ensures TasksOk(s')
  {
    hide ManagerNext, ServeNext, LeaveNext, SessionNext, TasksOk;
    if ManagerNext(s, step, s') {
      ManagerKeepsTasks(s, step, s');
    } else if ServeNext(s, step, s') {
      ServeKeepsTasks(s, step, s');
    } else if LeaveNext(s, step, s') {
      LeaveKeepsTasks(s, step, s');
    } else {
      SessionKeepsTasks(s, step, s');
    }
  }

  lemma StepKeepsFlag(s: State, step: Step, s': State)
    requires FlagOk(s) && Next(s, step, s')
    ensures FlagOk(s')
  {
    hide ManagerNext, ServeNext, LeaveNext, SessionNext, FlagOk;
    if ManagerNext(s, step, s') {
      ManagerKeepsFlag(s, step, s');
    } else {
      OtherKeepsFlag(s, step, s');
    }
  }

  lemma {:induction false} AlwaysEndable(run: Run, i: nat)
    requires IsRun(run) && i < |run.states|
    ensures FlagOk(run.states[i]) && TasksOk(run.states[i])
  {
    hide Next, FlagOk, TasksOk;
    if i == 0 {
      InitEndable(run.states[0]);
    } else {
      AlwaysEndable(run, i - 1);
      StepKeepsFlag(run.states[i - 1], run.steps[i - 1], run.states[i]);
      StepKeepsTasks(run.states[i - 1], run.steps[i - 1], run.states[i]);
    }
  }

  lemma InitEndable(s: State)
    requires Init(s)
    ensures FlagOk(s) && TasksOk(s)
  {
  }

  /** After `end`, either the flag is set or nothing was left that could see it, then or later. */
  ghost predicate Ended(s: State) {
    s.built && (s.flag || !HasReceivers(s))
  }

  lemma EndedStep(s: State, step: Step, s': State)
    requires TasksOk(s) && Next(s, step, s') && (Ended(s) || step == End)
    ensures Ended(s')
  {
    if Ended(s) && !s.flag {
      StaysQuiet(s, step, s');
    }
  }

  lemma StaysQuiet(s: State, step: Step, s': State)
    requires TasksOk(s) && Next(s, step, s') && s.built && !s.flag && !HasReceivers(s)
    ensures s'.built && !HasReceivers(s')
  {
    assert forall l :: 0 <= l < |s.layers| ==> s.layers[l].stage.Left?;
    assert forall n :: 0 <= n < |s.sessions| ==> s.sessions[n].stage != Running;
    assert s'.layers == s.layers && s'.sessions == s.sessions;
  }

  lemma {:induction false} StaysEnded(run: Run, i: nat, j: nat)
    requires IsRun(run) && i < j < |run.states| && run.steps[i] == End
    ensures Ended(run.states[j])
    decreases j
  {
    hide ManagerNext, ServeNext, LeaveNext, SessionNext, TasksOk, FlagOk, Ended;
    AlwaysEndable(run, j - 1);
    if j - 1 > i {
      StaysEnded(run, i, j - 1);
    }
    EndedStep(run.states[j - 1], run.steps[j - 1], run.states[j]);
  }

  /** In a state after `end`, every loop has the change unseen and its end branch enabled. */
  lemma EndedReaches(s: State, l: nat, n: nat)
    requires Ended(s) && FlagOk(s)
    ensures l < |s.layers| && Serving(s.layers[l]) ==> s.flag && s.layers[l].seen != s.version
    ensures l < |s.layers| && s.layers[l].stage == Selecting ==> exists s' :: Next(s, EndBranch(l), s')
    ensures n < |s.sessions| && s.sessions[n].stage == Running ==>
              s.flag && s.sessions[n].seen != s.version
              && exists s' :: Next(s, SessionEndBranch(n), s') && s'.sessions[n].stage == Done
  {
    hide ManagerNext, ServeNext;
    if l < |s.layers| && s.layers[l].stage == Selecting {
      var s' := s.(layers := WithLayer(s, l, s.layers[l].(stage := Draining, seen := s.version)));
      assert Next(s, EndBranch(l), s');
    }
    if n < |s.sessions| && s.sessions[n].stage == Running {
      var s' := s.(sessions := s.sessions[n := s.sessions[n].(seen := s.version, stage := Done)]);
      assert Next(s, SessionEndBranch(n), s');
    }
  }

  /** Shutdown is never lost: in every state after `end`, each netlayer loop still serving and each session loop
      still running, also one spawned since, has the change unseen; so its end branch is enabled, and a
      session that takes it stops. */
  lemma ShutdownReachesAll(run: Run, i: nat, j: nat, l: nat, n: nat)
    requires IsRun(run) && i < j < |run.states| && run.steps[i] == End
    ensures var s := run.states[j];
            && (l < |s.layers| && Serving(s.layers[l]) ==> s.flag && s.layers[l].seen != s.version)
            && (l < |s.layers| && s.layers[l].stage == Selecting ==> exists s' :: Next(s, EndBranch(l), s'))
            && (n < |s.sessions| && s.sessions[n].stage == Running ==>
                  s.flag && s.sessions[n].seen != s.version
                  && exists s' :: Next(s, SessionEndBranch(n), s') && s'.sessions[n].stage == Done)
  {
    hide Next, Ended;
    StaysEnded(run, i, j);
    AlwaysEndable(run, j);
    EndedReaches(run.states[j], l, n);
  }

  /** A netlayer that left by its end branch left no session of its own behind. */
  lemma LeftDrained(run: Run, i: nat, l: nat, n: nat)
    requires IsRun(run) && i < |run.states| && l < |run.states[i].layers|
    requires run.states[i].layers[l].stage == Left(true)
    requires n < |run.states[i].sessions| && run.states[i].sessions[n].layer == l
    ensures run.states[i].sessions[n].stage == Done
  {
    hide ManagerNext, ServeNext, LeaveNext, SessionNext;
    AlwaysEndable(run, i);
    assert LayerOk(l, run.states[i].layers[l], run.states[i].sessions);
    assert SessionOk(n, run.states[i].sessions[n], run.states[i].layers);
  }

  // ----- nothing ends by the end flag before it is raised

  /** One of the first `i` steps was this one. */
  ghost predicate Taken(run: Run, i: nat, step: Step) {
    exists j: nat :: j < i && j < |run.steps| && run.steps[j] == step
  }

  lemma TakenLater(run: Run, i: nat, j: nat, step: Step)
    requires Taken(run, i, step) && i <= j
    ensures Taken(run, j, step)
  {
  }

  lemma FlagStep(s: State, step: Step, s': State)
    requires Next(s, step, s')
    ensures s'.flag ==> s.flag || step == End
    ensures !s'.senderAlive ==> !s.senderAlive || step == DropSender
  {
  }

  lemma {:induction false} FlagWasRaised(run: Run, i: nat)
    requires IsRun(run) && i < |run.states|
    ensures run.states[i].flag ==> Taken(run, i, End)
    ensures !run.states[i].senderAlive ==> Taken(run, i, DropSender)
  {
    hide Next, Taken;
    if i == 0 {
    } else {
      FlagWasRaised(run, i - 1);
      FlagStep(run.states[i - 1], run.steps[i - 1], run.states[i]);
      TakenNow(run, i);
      if Taken(run, i - 1, End) {
        TakenLater(run, i - 1, i, End);
      }
      if Taken(run, i - 1, DropSender) {
        TakenLater(run, i - 1, i, DropSender);
      }
    }
  }

  lemma TakenNow(run: Run, i: nat)
    requires 0 < i <= |run.steps|
    ensures Taken(run, i, run.steps[i - 1])
  {
  }

  /** By its end branch. */
  predicate Leaving(layer: Layer) {
    layer.stage == Draining || layer.stage == Left(true)
  }

  lemma LeavingStep(s: State, step: Step, s': State, l: nat)
    requires FlagOk(s) && Next(s, step, s') && l < |s'.layers| && Leaving(s'.layers[l])
    ensures s.flag || !s.senderAlive || (l < |s.layers| && Leaving(s.layers[l]))
  {
  }

  /** A netlayer leaves by its end branch only after `end`, or after the manager is gone. */
  lemma {:induction false} LeavesOnlyAtEnd(run: Run, i: nat, l: nat)
    requires IsRun(run) && i < |run.states| && l < |run.states[i].layers| && Leaving(run.states[i].layers[l])
    ensures Taken(run, i, End) || Taken(run, i, DropSender)
  {
    hide Next, Taken, FlagOk, TasksOk;
    assert i > 0;
    AlwaysEndable(run, i - 1);
    LeavingStep(run.states[i - 1], run.steps[i - 1], run.states[i], l);
    FlagWasRaised(run, i - 1);
    var s := run.states[i - 1];
    if l < |s.layers| && Leaving(s.layers[l]) {
      LeavesOnlyAtEnd(run, i - 1, l);
    }
    if Taken(run, i - 1, End) {
      TakenLater(run, i - 1, i, End);
    } else {
      TakenLater(run, i - 1, i, DropSender);
    }
  }

  lemma LostStep(s: State, step: Step, s': State, l: nat)
    requires Next(s, step, s') && l < |s'.layers| && s'.layers[l].stage == Left(false)
    ensures step == AcceptError(l) || (step == Kill(l) && !s.senderAlive)
            || (l < |s.layers| && s.layers[l].stage == Left(false))
  {
  }

  /** Otherwise it is gone only by a failure to accept, or with the manager. */
  lemma {:induction false} LostOnlyByFailure(run: Run, i: nat, l: nat)
    requires IsRun(run) && i < |run.states| && l < |run.states[i].layers|
    requires run.states[i].layers[l].stage == Left(false)
    ensures Taken(run, i, AcceptError(l)) || (Taken(run, i, Kill(l)) && Taken(run, i, DropSender))
  {
    hide Next, Taken;
    assert i > 0;
    var s := run.states[i - 1];
    LostStep(s, run.steps[i - 1], run.states[i], l);
    TakenNow(run, i);
    if l < |s.layers| && s.layers[l].stage == Left(false) {
      LostOnlyByFailure(run, i - 1, l);
      if Taken(run, i - 1, AcceptError(l)) {
        TakenLater(run, i - 1, i, AcceptError(l));
      } else {
        TakenLater(run, i - 1, i, Kill(l));
        TakenLater(run, i - 1, i, DropSender);
      }
    } else if run.steps[i - 1] == Kill(l) {
      FlagWasRaised(run, i - 1);
      TakenLater(run, i - 1, i, DropSender);
    }
  }

  lemma DoneFromStep(s: State, step: Step, s': State, n: nat)
    requires Next(s, step, s') && n < |s'.sessions| && s'.sessions[n].stage == Done
    ensures n < |s.sessions|
    ensures s.sessions[n].stage == Done || step == SessionDone(n) || (step == SessionEndBranch(n) && s.flag)
  {
  }

  /** A session's loop ends by its end branch only after `end`; otherwise it ends for a reason of its own. */
  lemma {:induction false} StopsOnlyAtEnd(run: Run, i: nat, n: nat)
    requires IsRun(run) && i < |run.states| && n < |run.states[i].sessions| && run.states[i].sessions[n].stage == Done
    ensures Taken(run, i, SessionDone(n)) || (Taken(run, i, SessionEndBranch(n)) && Taken(run, i, End))
  {
    hide Next, Taken;
    assert i > 0;
    var s := run.states[i - 1];
    DoneFromStep(s, run.steps[i - 1], run.states[i], n);
    TakenNow(run, i);
    if s.sessions[n].stage == Done {
      StopsOnlyAtEnd(run, i - 1, n);
      if Taken(run, i - 1, SessionDone(n)) {
        TakenLater(run, i - 1, i, SessionDone(n));
      } else {
        TakenLater(run, i - 1, i, SessionEndBranch(n));
        TakenLater(run, i - 1, i, End);
      }
    } else if run.steps[i - 1] != SessionDone(n) {
      FlagWasRaised(run, i - 1);
      TakenLater(run, i - 1, i, End);
    }
  }

  predicate Joins(step: Step, l: nat) {
    step.Join? && step.layer == l
  }

  function JoinCount(steps: seq<Step>, l: nat): nat {
    if steps == [] then 0 else JoinCount(Front(steps), l) + if Joins(Last(steps), l) then 1 else 0
  }

  lemma LeavingUnserved(s: State, step: Step, s': State, l: nat)
    requires ServeNext(s, step, s')
    requires l < |s.layers| && (s.layers[l].stage.Draining? || s.layers[l].stage.Left?)
    ensures l < |s'.layers| && s'.layers[l].stage == s.layers[l].stage && s'.layers[l].tasks == s.layers[l].tasks
    ensures !step.Join?
  {
    assert step.layer != l;
  }

  lemma LeavingUntouched(s: State, step: Step, s': State, l: nat)
    requires ManagerNext(s, step, s') || ServeNext(s, step, s') || SessionNext(s, step, s')
    requires l < |s.layers| && (s.layers[l].stage.Draining? || s.layers[l].stage.Left?)
    ensures l < |s'.layers| && s'.layers[l].stage == s.layers[l].stage && s'.layers[l].tasks == s.layers[l].tasks
    ensures !step.Join?
  {
    hide ServeNext;
    if ServeNext(s, step, s') {
      LeavingUnserved(s, step, s', l);
    }
  }

  lemma DrainStep(s: State, step: Step, s': State, l: nat)
    requires Next(s, step, s') && l < |s.layers| && (s.layers[l].stage.Draining? || s.layers[l].stage.Left?)
    ensures l < |s'.layers|
    ensures s.layers[l].stage.Left? ==> s'.layers[l].stage == s.layers[l].stage && !Joins(step, l)
    ensures s.layers[l].stage.Draining? ==> s'.layers[l].stage in {Draining, Left(true), Left(false)}
    ensures if Joins(step, l) then step.session in s.layers[l].tasks
            && s'.layers[l].tasks == s.layers[l].tasks - {step.session}
            else s'.layers[l].tasks == s.layers[l].tasks
    ensures s.layers[l].stage.Draining? && s'.layers[l].stage == Left(true) ==> s'.layers[l].tasks == {}
  {
    hide ManagerNext, ServeNext, SessionNext;
    if !LeaveNext(s, step, s') {
      LeavingUntouched(s, step, s', l);
    }
  }

  /** While a netlayer drains, its task count falls by exactly one with each join and by nothing else; so when it
      has left by its end branch, it joined as many tasks as it had. */
  lemma {:induction false} DrainCounts(run: Run, i: nat, j: nat, l: nat)
    requires IsRun(run) && i <= j < |run.states| && l < |run.states[i].layers|
            && run.states[i].layers[l].stage == Draining
    ensures l < |run.states[j].layers| && run.states[j].layers[l].stage in {Draining, Left(true), Left(false)}
    ensures |run.states[j].layers[l].tasks| + JoinCount(run.steps[i..j], l) == |run.states[i].layers[l].tasks|
    ensures run.states[j].layers[l].stage == Left(true) ==>
              JoinCount(run.steps[i..j], l) == |run.states[i].layers[l].tasks|
    decreases j
  {
    hide ManagerNext, ServeNext, LeaveNext, SessionNext;
    if i == j {
      assert run.steps[i..j] == [];
    } else {
      DrainCounts(run, i, j - 1, l);
      DrainStep(run.states[j - 1], run.steps[j - 1], run.states[j], l);
      assert Front(run.steps[i..j]) == run.steps[i..j - 1];
    }
  }

  // ----- sessions produced, announced and spawned

  ghost function SpawnedBy(sessions: seq<Session>, l: nat): set<nat> {
    set n: nat | n < |sessions| && sessions[n].layer == l && sessions[n].stage != Unspawned
  }

  ghost predicate CountsOk(l: nat, layer: Layer, sessions: seq<Session>) {
    && layer.spawned == |SpawnedBy(sessions, l)|
    && match layer.stage
       case InHand(_) => layer.accepts + layer.connects == layer.announced + 1 && layer.announced == layer.spawned
       case Announced(_) => layer.accepts + layer.connects == layer.announced == layer.spawned + 1
       case Left(false) => true
       case _ => layer.accepts + layer.connects == layer.announced == layer.spawned
  }

  ghost predicate AllCountsOk(s: State) {
    forall l :: 0 <= l < |s.layers| ==> CountsOk(l, s.layers[l], s.sessions)
  }

  /** A session that is added unspawned, or that changes without being spawned, changes no count. */
  lemma SpawnedKept(s: State, step: Step, s': State, l: nat)
    requires Next(s, step, s') && !step.Spawn?
    ensures SpawnedBy(s'.sessions, l) == SpawnedBy(s.sessions, l)
  {
    hide Next, SpawnedBy;
    SessionsKept(s, step, s');
    SameSpawnedBy(s.sessions, s'.sessions, l);
  }

  lemma SessionsKept(s: State, step: Step, s': State)
    requires Next(s, step, s') && !step.Spawn?
    ensures |s.sessions| <= |s'.sessions|
    ensures forall n :: 0 <= n < |s.sessions| ==>
              s'.sessions[n].layer == s.sessions[n].layer
              && (s'.sessions[n].stage == Unspawned <==> s.sessions[n].stage == Unspawned)
    ensures forall n :: |s.sessions| <= n < |s'.sessions| ==> s'.sessions[n].stage == Unspawned
  {
  }

  lemma SameSpawnedBy(sessions: seq<Session>, sessions': seq<Session>, l: nat)
    requires |sessions| <= |sessions'|
    requires forall n :: 0 <= n < |sessions| ==>
               sessions'[n].layer == sessions[n].layer
               && (sessions'[n].stage == Unspawned <==> sessions[n].stage == Unspawned)
    requires forall n :: |sessions| <= n < |sessions'| ==> sessions'[n].stage == Unspawned
    ensures SpawnedBy(sessions', l) == SpawnedBy(sessions, l)
  {
  }

  lemma SpawnedPlus(sessions: seq<Session>, n: nat, l: nat, seen: nat, m: nat)
    requires n < |sessions| && sessions[n] == Session(l, 0, Unspawned)
    ensures SpawnedBy(sessions[n := Session(l, seen, Running)], m) ==
            SpawnedBy(sessions, m) + (if m == l then {n} else {})
    ensures n !in SpawnedBy(sessions, m)
  {
  }

  lemma SpawnCountsIn(s: State, l: nat, s': State, m: nat)
    requires AllCountsOk(s) && TasksOk(s) && Next(s, Spawn(l), s') && m < |s'.layers|
    ensures CountsOk(m, s'.layers[m], s'.sessions)
  {
    hide SpawnedBy;
    var n := s.layers[l].stage.session;
    assert LayerOk(l, s.layers[l], s.sessions);
    assert CountsOk(m, s.layers[m], s.sessions);
    SpawnedPlus(s.sessions, n, l, s.layers[l].seen, m);
  }

  lemma SpawnCounts(s: State, l: nat, s': State)
    requires AllCountsOk(s) && TasksOk(s) && Next(s, Spawn(l), s')
    ensures AllCountsOk(s')
  {
    hide Next, CountsOk, TasksOk;
    forall m: nat | m < |s'.layers| ensures CountsOk(m, s'.layers[m], s'.sessions) {
      SpawnCountsIn(s, l, s', m);
    }
  }

  lemma NewLayerUncounted(s: State)
    requires TasksOk(s)
    ensures SpawnedBy(s.sessions, |s.layers|) == {}
  {
    assert forall n :: 0 <= n < |s.sessions| ==> SessionOk(n, s.sessions[n], s.layers);
  }

  ghost predicate SameSpawned(s: State, s': State) {
    forall m :: 0 <= m < |s'.layers| ==> SpawnedBy(s'.sessions, m) == SpawnedBy(s.sessions, m)
  }

  lemma ServeCounts(s: State, step: Step, s': State)
    requires AllCountsOk(s) && ServeNext(s, step, s') && !step.Spawn? && SameSpawned(s, s')
    ensures AllCountsOk(s')
  {
    hide SpawnedBy;
    forall m | 0 <= m < |s'.layers| ensures CountsOk(m, s'.layers[m], s'.sessions) {
      assert CountsOk(m, s.layers[m], s.sessions);
    }
  }

  lemma ManagerCounts(s: State, step: Step, s': State)
    requires AllCountsOk(s) && SpawnedBy(s.sessions, |s.layers|) == {} && SameSpawned(s, s')
    requires ManagerNext(s, step, s')
    ensures AllCountsOk(s')
  {
    hide SpawnedBy;
    forall m | 0 <= m < |s'.layers| ensures CountsOk(m, s'.layers[m], s'.sessions) {
      assert m < |s.layers| ==> CountsOk(m, s.layers[m], s.sessions);
    }
  }

  lemma OtherCounts(s: State, step: Step, s': State)
    requires AllCountsOk(s) && SameSpawned(s, s') && (LeaveNext(s, step, s') || SessionNext(s, step, s'))
    ensures AllCountsOk(s')
  {
    hide SpawnedBy;
    forall m | 0 <= m < |s'.layers| ensures CountsOk(m, s'.layers[m], s'.sessions) {
      assert m < |s.layers| ==> CountsOk(m, s.layers[m], s.sessions);
    }
  }

  lemma StepCounts(s: State, step: Step, s': State)
    requires AllCountsOk(s) && TasksOk(s) && Next(s, step, s')
    ensures AllCountsOk(s')
  {
    hide ManagerNext, ServeNext, LeaveNext, SessionNext, AllCountsOk;
    if step.Spawn? {
      SpawnCounts(s, step.layer, s');
    } else {
      forall m: nat | m < |s'.layers| ensures SpawnedBy(s'.sessions, m) == SpawnedBy(s.sessions, m) {
        SpawnedKept(s, step, s', m);
      }
      NewLayerUncounted(s);
      if ServeNext(s, step, s') {
        ServeCounts(s, step, s');
      } else if ManagerNext(s, step, s') {
        ManagerCounts(s, step, s');
      } else {
        OtherCounts(s, step, s');
      }
    }
  }

  lemma {:induction false} AlwaysCounts(run: Run, i: nat)
    requires IsRun(run) && i < |run.states|
    ensures AllCountsOk(run.states[i])
  {
    hide ManagerNext, ServeNext, LeaveNext, SessionNext;
    if i == 0 {
    } else {
      AlwaysCounts(run, i - 1);
      AlwaysEndable(run, i - 1);
      StepCounts(run.states[i - 1], run.steps[i - 1], run.states[i]);
    }
  }

  /** Whenever a netlayer is in its `select!`, and after it left by its end branch: every session it accepted or
      connected was announced to the manager once, and has its own session loop. */
  lemma EverySessionAnnouncedAndSpawned(run: Run, i: nat, l: nat)
    requires IsRun(run) && i < |run.states| && l < |run.states[i].layers|
    requires run.states[i].layers[l].stage in {Selecting, Draining, Left(true)}
    ensures var layer := run.states[i].layers[l];
            layer.accepts + layer.connects == layer.announced == |SpawnedBy(run.states[i].sessions, l)|
  {
    hide ManagerNext, ServeNext, LeaveNext, SessionNext;
    AlwaysCounts(run, i);
    assert CountsOk(l, run.states[i].layers[l], run.states[i].sessions);
  }

  // ----- requests

  /** A layer is sent requests in the order they are made, and takes them in that order. */
  ghost predicate QueueOk(l: nat, layer: Layer, requests: seq<Request>) {
    && layer.taken <= |layer.queue|
    && (forall i, j :: 0 <= i < j < |layer.queue| ==> layer.queue[i] < layer.queue[j])
    && (forall i :: 0 <= i < |layer.queue| ==>
          layer.queue[i] < |requests| && requests[layer.queue[i]] == Request(layer.transport, l))
    && (layer.stage.Connecting? ==> layer.taken > 0 && layer.stage.request == layer.queue[layer.taken - 1])
  }

  /** The requests a layer has finished with: those it took, but for the one it is connecting for. */
  function Finished(layer: Layer): nat {
    if layer.stage.Connecting? && layer.taken > 0 then layer.taken - 1 else layer.taken
  }

  /** A finished request was answered, unless its layer was killed; an answered one is finished. */
  ghost predicate AnswersOk(layer: Layer, answers: seq<nat>) {
    forall i :: 0 <= i < |layer.queue| ==>
      && (layer.queue[i] in answers ==> i < Finished(layer))
      && (i < Finished(layer) && layer.stage != Left(false) ==> layer.queue[i] in answers)
  }

  ghost predicate RequestsOk(s: State) {
    && (forall l :: 0 <= l < |s.layers| ==> QueueOk(l, s.layers[l], s.requests) && AnswersOk(s.layers[l], s.answers))
    && (forall t :: t in s.registered ==> s.registered[t] < |s.layers| && s.layers[s.registered[t]].transport == t)
    && (forall i, j :: 0 <= i < j < |s.answers| ==> s.answers[i] != s.answers[j])
    && (forall i :: 0 <= i < |s.answers| ==> s.answers[i] < |s.requests|)
  }

  lemma RequestJoins(l: nat, layer: Layer, requests: seq<Request>, answers: seq<nat>)
    requires QueueOk(l, layer, requests) && AnswersOk(layer, answers)
    requires forall i :: 0 <= i < |answers| ==> answers[i] < |requests|
    ensures var queued := layer.(queue := layer.queue + [|requests|]);
            QueueOk(l, queued, requests + [Request(layer.transport, l)]) && AnswersOk(queued, answers)
  {
  }

  lemma RequestElsewhere(l: nat, layer: Layer, requests: seq<Request>, request: Request)
    requires QueueOk(l, layer, requests)
    ensures QueueOk(l, layer, requests + [request])
  {
  }

  lemma RequestKeepsRequests(s: State, transport: string, s': State)
    requires RequestsOk(s) && ManagerNext(s, RequestConnect(transport), s')
    ensures RequestsOk(s')
  {
    hide QueueOk, AnswersOk;
    forall l: nat | l < |s'.layers|
      ensures QueueOk(l, s'.layers[l], s'.requests) && AnswersOk(s'.layers[l], s'.answers)
    {
      assert QueueOk(l, s.layers[l], s.requests) && AnswersOk(s.layers[l], s.answers);
      if s' != s && l == s.registered[transport] {
        RequestJoins(l, s.layers[l], s.requests, s.answers);
      } else if s' != s {
        RequestElsewhere(l, s.layers[l], s.requests, s'.requests[|s.requests|]);
      }
    }
  }

  lemma ManagerKeepsRequests(s: State, step: Step, s': State)
    requires RequestsOk(s) && ManagerNext(s, step, s') && !step.RequestConnect?
    ensures RequestsOk(s')
  {
  }

  /** The answer to another layer's request changes nothing here. */
  lemma AnsweredElsewhere(l: nat, layer: Layer, requests: seq<Request>, answers: seq<nat>, r: nat)
    requires QueueOk(l, layer, requests) && AnswersOk(layer, answers)
    requires r < |requests| && requests[r].layer != l
    ensures AnswersOk(layer, answers + [r])
  {
  }

  /** The answer to the request in hand finishes it. */
  lemma AnsweredHere(l: nat, layer: Layer, layer': Layer, requests: seq<Request>, answers: seq<nat>)
    requires QueueOk(l, layer, requests) && AnswersOk(layer, answers) && layer.stage.Connecting?
    requires layer'.transport == layer.transport && layer'.queue == layer.queue && layer'.taken == layer.taken
    requires !layer'.stage.Connecting? && layer'.stage != Left(false)
    ensures QueueOk(l, layer', requests) && AnswersOk(layer', answers + [layer.stage.request])
    ensures layer.stage.request !in answers && layer.stage.request < |requests|
    ensures requests[layer.stage.request].layer == l
  {
    assert layer.queue[layer.taken - 1] == layer.stage.request;
  }

  lemma AnswerKeepsRequests(s: State, step: Step, s': State)
    requires RequestsOk(s) && ServeNext(s, step, s') && (step.ConnectOk? || step.ConnectError?)
    ensures RequestsOk(s')
  {
    hide QueueOk, AnswersOk;
    var (k, layer) := (step.layer, s.layers[step.layer]);
    AnsweredHere(k, layer, s'.layers[k], s.requests, s.answers);
    forall l: nat | l < |s'.layers|
      ensures QueueOk(l, s'.layers[l], s'.requests) && AnswersOk(s'.layers[l], s'.answers)
    {
      assert QueueOk(l, s.layers[l], s.requests) && AnswersOk(s.layers[l], s.answers);
      if l != k {
        AnsweredElsewhere(l, s.layers[l], s.requests, s.answers, layer.stage.request);
      }
    }
  }

  /** A layer that takes its next request, or that goes on otherwise without answering one. */
  lemma LayerMoves(l: nat, layer: Layer, layer': Layer, requests: seq<Request>, answers: seq<nat>)
    requires QueueOk(l, layer, requests) && AnswersOk(layer, answers)
    requires layer'.transport == layer.transport && layer'.queue == layer.queue
    requires
      || (layer'.taken == layer.taken
          && (layer'.stage == layer.stage || layer'.stage == Left(false)
              || (!layer.stage.Connecting? && layer.stage != Left(false) && !layer'.stage.Connecting?)))
      || (layer.stage == Selecting && layer.taken < |layer.queue|
          && layer'.taken == layer.taken + 1 && layer'.stage == Connecting(layer.queue[layer.taken]))
    ensures QueueOk(l, layer', requests) && AnswersOk(layer', answers)
  {
  }

  lemma ServeKeepsRequests(s: State, step: Step, s': State)
    requires RequestsOk(s) && ServeNext(s, step, s') && !step.ConnectOk? && !step.ConnectError?
    ensures RequestsOk(s')
  {
    hide QueueOk, AnswersOk;
    forall l: nat | l < |s'.layers|
      ensures QueueOk(l, s'.layers[l], s'.requests) && AnswersOk(s'.layers[l], s'.answers)
    {
      assert QueueOk(l, s.layers[l], s.requests) && AnswersOk(s.layers[l], s.answers);
      LayerMoves(l, s.layers[l], s'.layers[l], s.requests, s.answers);
    }
  }

  lemma LeaveKeepsRequests(s: State, step: Step, s': State)
    requires RequestsOk(s) && LeaveNext(s, step, s')
    ensures RequestsOk(s')
  {
    hide QueueOk, AnswersOk;
    forall l: nat | l < |s'.layers|
      ensures QueueOk(l, s'.layers[l], s'.requests) && AnswersOk(s'.layers[l], s'.answers)
    {
      assert QueueOk(l, s.layers[l], s.requests) && AnswersOk(s.layers[l], s.answers);
      LayerMoves(l, s.layers[l], s'.layers[l], s.requests, s.answers);
    }
  }

  lemma SessionKeepsRequests(s: State, step: Step, s': State)
    requires RequestsOk(s) && SessionNext(s, step, s')
    ensures RequestsOk(s')
  {
  }

  lemma {:induction false} AlwaysRequestsOk(run: Run, i: nat)
    requires IsRun(run) && i < |run.states|
    ensures RequestsOk(run.states[i])
  {
    hide ManagerNext, ServeNext, LeaveNext, SessionNext;
    if i == 0 {
    } else {
      AlwaysRequestsOk(run, i - 1);
      var s, step, s' := run.states[i - 1], run.steps[i - 1], run.states[i];
      if ManagerNext(s, step, s') {
        if step.RequestConnect? {
          RequestKeepsRequests(s, step.transport, s');
        } else {
          ManagerKeepsRequests(s, step, s');
        }
      } else if ServeNext(s, step, s') {
        if step.ConnectOk? || step.ConnectError? {
          AnswerKeepsRequests(s, step, s');
        } else {
          ServeKeepsRequests(s, step, s');
        }
      } else if LeaveNext(s, step, s') {
        LeaveKeepsRequests(s, step, s');
      } else {
        SessionKeepsRequests(s, step, s');
      }
    }
  }

  /** Each request is sent to the layer registered for its transport at that time, and to no other; a request
      for an unregistered transport, or to a loop that has returned, is sent nowhere. */
  lemma RequestGoesToRegistered(run: Run, i: nat, transport: string)
    requires IsRun(run) && i < |run.steps| && run.steps[i] == RequestConnect(transport)
    ensures var (s, s') := (run.states[i], run.states[i + 1]);
            if transport in s.registered && s.registered[transport] < |s.layers|
               && !s.layers[s.registered[transport]].stage.Left?
            then
              var l := s.registered[transport];
              && s.layers[l].transport == transport && |s'.layers| == |s.layers|
              && |s'.requests| == |s.requests| + 1 && s'.requests[|s.requests|] == Request(transport, l)
              && s'.layers[l].queue == s.layers[l].queue + [|s.requests|]
              && forall m :: 0 <= m < |s.layers| && m != l ==> s'.layers[m] == s.layers[m]
            else s' == s
  {
    AlwaysRequestsOk(run, i);
    assert ManagerNext(run.states[i], run.steps[i], run.states[i + 1]);
  }

  /** A layer takes the requests made to it in the order they were made; no request is answered twice; and at
      its `select!`, exactly the requests a layer has taken are answered. */
  lemma RequestsServedInOrder(run: Run, i: nat, l: nat, m: nat, n: nat)
    requires IsRun(run) && i < |run.states|
    ensures var s := run.states[i];
            && (m < n < |s.answers| ==> s.answers[m] != s.answers[n])
            && (l < |s.layers| ==>
                  var layer := s.layers[l];
                  && layer.taken <= |layer.queue|
                  && (m < n < |layer.queue| ==> layer.queue[m] < layer.queue[n])
                  && (m < |layer.queue| && layer.stage == Selecting ==>
                        (layer.queue[m] in s.answers <==> m < layer.taken)))
  {
    hide ManagerNext, ServeNext, LeaveNext, SessionNext;
    AlwaysRequestsOk(run, i);
    var s := run.states[i];
    if l < |s.layers| {
      assert QueueOk(l, s.layers[l], s.requests) && AnswersOk(s.layers[l], s.answers);
    }
  }
}
