/** The netlayers and the node as one system: a session of a netlayer is a session of the node, and passes through
    its phases with it. So the end flag reaches every session of the node. */
module Sessions {
  import opened Foundation
  import opened Paths
  import N = Node
  import L = Netlayers

  /** `keys` are the keys of the netlayers' sessions. */
  datatype Joint = Joint(node: N.State, net: L.State, keys: seq<Key>)

  datatype JointStep =
    | Produce(from: L.Step, key: Key)
    | Announce(layer: nat)
    | Spawn(layer: nat)
    | Finish(from: L.Step, how: N.Step)
    | NetOnly(from: L.Step)
    | NodeOnly(step: N.Step)

  /** The session that the layer has in hand. */
  predicate HasInHand(j: Joint, l: nat) {
    && l < |j.net.layers| && (j.net.layers[l].stage.InHand? || j.net.layers[l].stage.Announced?)
    && j.net.layers[l].stage.session < |j.keys|
  }

  /** The step ends session `n`'s loop. */
  predicate EndsLoop(s: L.State, step: L.Step, n: nat) {
    step == L.SessionDone(n) || (step == L.SessionEndBranch(n) && s.flag)
  }

  predicate EndsSome(s: L.State, step: L.Step) {
    (step.SessionDone? || step.SessionEndBranch?) && EndsLoop(s, step, step.session)
  }

  predicate Moves(step: N.Step) {
    step.NetProduce? || step.NetAnnounce? || step.NetSpawn? || step.RecvAbort? || step.LoopEnd?
  }

  /** The two meet where a session is produced, announced and spawned, and where its loop ends. */
  ghost predicate Next(j: Joint, step: JointStep, j': Joint) {
    match step
    case Produce(from, k) =>
      && (from.Accept? || from.ConnectOk?) && L.Next(j.net, from, j'.net)
      && N.Next(j.node, N.NetProduce(k), j'.node) && j'.keys == j.keys + [k]
    case Announce(l) =>
      && HasInHand(j, l) && L.Next(j.net, L.Announce(l), j'.net)
      && N.Next(j.node, N.NetAnnounce(j.keys[j.net.layers[l].stage.session]), j'.node) && j'.keys == j.keys
    case Spawn(l) =>
      && HasInHand(j, l) && L.Next(j.net, L.Spawn(l), j'.net)
      && N.Next(j.node, N.NetSpawn(j.keys[j.net.layers[l].stage.session]), j'.node) && j'.keys == j.keys
    case Finish(from, how) =>
      && EndsSome(j.net, from) && from.session < |j.keys|
      && L.Next(j.net, from, j'.net)
      && (how.RecvAbort? || how.LoopEnd?) && how.session == j.keys[from.session] && N.Next(j.node, how, j'.node)
      && j'.keys == j.keys
    case NetOnly(from) =>
      && !from.Accept? && !from.ConnectOk? && !from.Announce? && !from.Spawn?
      && !EndsSome(j.net, from)
      && L.Next(j.net, from, j'.net) && j'.node == j.node && j'.keys == j.keys
    case NodeOnly(st) => !Moves(st) && N.Next(j.node, st, j'.node) && j'.net == j.net && j'.keys == j.keys
  }

  datatype Run = Run(states: seq<Joint>, steps: seq<JointStep>)

  ghost predicate IsRun(run: Run) {
    && |run.states| == |run.steps| + 1
    && N.Init(run.states[0].node) && L.Init(run.states[0].net) && run.states[0].keys == []
    && forall i :: 0 <= i < |run.steps| ==> Next(run.states[i], run.steps[i], run.states[i + 1])
  }

  // ----- the phases agree

  /** The phase of the node's session in which the netlayers' session is. */
  ghost predicate PhaseOf(n: nat, session: L.Session, layers: seq<L.Layer>, phase: N.Phase) {
    match session.stage
    case Running => phase == N.Running
    case Done => phase == N.Ended
    case Unspawned =>
      && session.layer < |layers|
      && (layers[session.layer].stage == L.InHand(n) ==> phase == N.Produced)
      && (layers[session.layer].stage == L.Announced(n) ==> phase == N.Announced)
      && phase in {N.Produced, N.Announced}
  }

  ghost predicate Agree(j: Joint) {
    && |j.keys| == |j.net.sessions|
    && (forall m, n :: 0 <= m < n < |j.keys| ==> j.keys[m] != j.keys[n])
    && (forall k :: k in j.node.phases <==> k in j.keys)
    && (forall k :: k in j.node.exports <==> k in j.keys)
    && (forall n :: 0 <= n < |j.keys| ==>
          j.keys[n] in j.node.phases
          && PhaseOf(n, j.net.sessions[n], j.net.layers, j.node.phases[j.keys[n]]))
  }

  // ----- what each side does

  lemma NodePhases(s: N.State, step: N.Step, s': N.State)
    requires N.Next(s, step, s')
    ensures !Moves(step) ==> s'.phases == s.phases && s'.exports.Keys == s.exports.Keys
    ensures step.NetProduce? ==> step.session !in s.exports && s'.phases == s.phases[step.session := N.Produced]
                                 && s'.exports.Keys == s.exports.Keys + {step.session}
    ensures step.NetAnnounce? ==> Turns(s, step.session, N.Produced, N.Announced, s')
    ensures step.NetSpawn? ==> Turns(s, step.session, N.Announced, N.Running, s')
    ensures step.RecvAbort? || step.LoopEnd? ==> Turns(s, step.session, N.Running, N.Ended, s')
  {
    hide N.FetchNext, N.ManagerNext, N.PortalNext, N.ChannelNext, N.GatewayNext;
    if N.FetchNext(s, step, s') {
      FetchPhases(s, step, s');
    } else if N.ManagerNext(s, step, s') {
      ManagerPhases(s, step, s');
    } else if N.PortalNext(s, step, s') {
      PortalPhases(s, step, s');
    } else if N.ChannelNext(s, step, s') {
      ChannelPhases(s, step, s');
    } else if N.GatewayNext(s, step, s') {
      GatewayPhases(s, step, s');
    }
  }

  /** The session, and no other, goes from one phase to another. */
  ghost predicate Turns(s: N.State, k: Key, a: N.Phase, b: N.Phase, s': N.State) {
    k in s.phases && s.phases[k] == a && s'.phases == s.phases[k := b] && s'.exports.Keys == s.exports.Keys
  }

  lemma FetchPhases(s: N.State, step: N.Step, s': N.State)
    requires N.FetchNext(s, step, s')
    ensures !Moves(step) && s'.phases == s.phases && s'.exports.Keys == s.exports.Keys
  {
    if !step.FetchExport? {
      assert s'.exports == s.exports;
    }
  }

  lemma ManagerPhases(s: N.State, step: N.Step, s': N.State)
    requires N.ManagerNext(s, step, s')
    ensures !Moves(step) && s'.phases == s.phases && s'.exports.Keys == s.exports.Keys
  {
    if !step.RecvPortalRequest? {
      assert s'.exports == s.exports;
    }
  }

  lemma PortalPhases(s: N.State, step: N.Step, s': N.State)
    requires N.PortalNext(s, step, s')
    ensures !Moves(step) && s'.phases == s.phases && s'.exports.Keys == s.exports.Keys
  {
    if !step.ConnectExport? {
      assert s'.exports == s.exports;
    }
  }

  lemma ChannelPhases(s: N.State, step: N.Step, s': N.State)
    requires N.ChannelNext(s, step, s')
    ensures !Moves(step) && s'.phases == s.phases && s'.exports == s.exports
  {
  }

  lemma GatewayPhases(s: N.State, step: N.Step, s': N.State)
    requires N.GatewayNext(s, step, s')
    ensures !Moves(step) && s'.phases == s.phases && s'.exports == s.exports
  {
  }

  /** Only these steps move a session of the netlayers on. */
  ghost predicate KeepsSessions(s: L.State, s': L.State) {
    && |s'.sessions| == |s.sessions| && |s.layers| <= |s'.layers|
    && (forall n :: 0 <= n < |s.sessions| ==>
          s'.sessions[n].layer == s.sessions[n].layer && s'.sessions[n].stage == s.sessions[n].stage)
    && (forall l :: 0 <= l < |s.layers| && (s'.layers[l].stage.InHand? || s'.layers[l].stage.Announced?) ==>
          s'.layers[l].stage == s.layers[l].stage)
  }

  lemma ServeKeepsSessions(s: L.State, step: L.Step, s': L.State)
    requires L.ServeNext(s, step, s') && !step.Accept? && !step.ConnectOk? && !step.Announce? && !step.Spawn?
    ensures KeepsSessions(s, s')
  {
  }

  lemma LeaveKeepsSessions(s: L.State, step: L.Step, s': L.State)
    requires L.LeaveNext(s, step, s')
    ensures KeepsSessions(s, s')
  {
  }

  lemma OtherKeepsSessions(s: L.State, step: L.Step, s': L.State)
    requires L.ManagerNext(s, step, s') || (L.SessionNext(s, step, s') && !EndsSome(s, step))
    ensures KeepsSessions(s, s')
  {
  }

  lemma NetKeepsSessions(s: L.State, step: L.Step, s': L.State)
    requires L.Next(s, step, s') && !step.Accept? && !step.ConnectOk? && !step.Announce? && !step.Spawn?
    requires !EndsSome(s, step)
    ensures KeepsSessions(s, s')
  {
    hide L.ManagerNext, L.ServeNext, L.LeaveNext, L.SessionNext, KeepsSessions, EndsSome;
    if L.ServeNext(s, step, s') {
      ServeKeepsSessions(s, step, s');
    } else if L.LeaveNext(s, step, s') {
      LeaveKeepsSessions(s, step, s');
    } else {
      OtherKeepsSessions(s, step, s');
    }
  }

  // ----- every joint step keeps the agreement

  lemma ProduceMoves(s: L.State, from: L.Step, s': L.State)
    requires L.TasksOk(s) && (from.Accept? || from.ConnectOk?) && L.Next(s, from, s')
    ensures |s'.sessions| == |s.sessions| + 1
    ensures PhaseOf(|s.sessions|, s'.sessions[|s.sessions|], s'.layers, N.Produced)
    ensures forall m :: 0 <= m < |s.sessions| ==> Unmoved(m, s, s')
  {
  }

  lemma ProduceAgrees(j: Joint, step: JointStep, j': Joint)
    requires Agree(j) && L.TasksOk(j.net) && step.Produce? && Next(j, step, j')
    ensures Agree(j')
  {
    hide N.Next, L.Next, L.TasksOk, Unmoved, PhaseOf;
    NodePhases(j.node, N.NetProduce(step.key), j'.node);
    ProduceMoves(j.net, step.from, j'.net);
    assert step.key !in j.keys;
    forall m | 0 <= m < |j.keys| ensures PhaseOf(m, j'.net.sessions[m], j'.net.layers, j'.node.phases[j'.keys[m]]) {
      assert j'.keys[m] == j.keys[m] && Unmoved(m, j.net, j'.net);
      StaysPut(m, j.net, j'.net, j.node.phases[j.keys[m]]);
    }
  }

  lemma StaysPut(m: nat, s: L.State, s': L.State, phase: N.Phase)
    requires Unmoved(m, s, s') && PhaseOf(m, s.sessions[m], s.layers, phase)
    ensures PhaseOf(m, s'.sessions[m], s'.layers, phase)
  {
  }

  /** One session goes on to the phase that its netlayer has it in; the others stay. */
  lemma TurnAgrees(j: Joint, n: nat, a: N.Phase, b: N.Phase, j': Joint)
    requires Agree(j) && n < |j.keys| && j'.keys == j.keys && |j'.net.sessions| == |j.net.sessions|
    requires Turns(j.node, j.keys[n], a, b, j'.node) && PhaseOf(n, j'.net.sessions[n], j'.net.layers, b)
    requires forall m :: 0 <= m < |j.keys| && m != n ==> Unmoved(m, j.net, j'.net)
    ensures Agree(j')
  {
    forall m | 0 <= m < |j.keys|
      ensures j.keys[m] in j'.node.phases && PhaseOf(m, j'.net.sessions[m], j'.net.layers, j'.node.phases[j.keys[m]])
    {
      assert m != n ==> Unmoved(m, j.net, j'.net) && j.keys[m] != j.keys[n];
    }
  }

  /** Whatever phase session `m` was in, it is in still. */
  ghost predicate Unmoved(m: nat, s: L.State, s': L.State) {
    m < |s.sessions| && m < |s'.sessions| &&
    forall phase :: PhaseOf(m, s.sessions[m], s.layers, phase) ==> PhaseOf(m, s'.sessions[m], s'.layers, phase)
  }

  lemma AnnounceMoves(s: L.State, l: nat, s': L.State)
    requires L.TasksOk(s) && L.Next(s, L.Announce(l), s')
    ensures l < |s.layers| && s.layers[l].stage.InHand? && |s'.sessions| == |s.sessions|
    ensures var n := s.layers[l].stage.session;
            n < |s.sessions| && PhaseOf(n, s'.sessions[n], s'.layers, N.Announced)
            && forall m :: 0 <= m < |s.sessions| && m != n ==> Unmoved(m, s, s')
  {
    assert L.LayerOk(l, s.layers[l], s.sessions);
  }

  lemma SpawnMoves(s: L.State, l: nat, s': L.State)
    requires L.TasksOk(s) && L.Next(s, L.Spawn(l), s')
    ensures l < |s.layers| && s.layers[l].stage.Announced? && |s'.sessions| == |s.sessions|
    ensures var n := s.layers[l].stage.session;
            n < |s.sessions| && PhaseOf(n, s'.sessions[n], s'.layers, N.Running)
            && forall m :: 0 <= m < |s.sessions| && m != n ==> Unmoved(m, s, s')
  {
  }

  lemma FinishMoves(s: L.State, from: L.Step, s': L.State)
    requires EndsSome(s, from) && L.Next(s, from, s')
    ensures |s'.sessions| == |s.sessions| && from.session < |s.sessions| && s'.sessions[from.session].stage == L.Done
    ensures forall m :: 0 <= m < |s.sessions| && m != from.session ==> Unmoved(m, s, s')
  {
  }

  lemma AnnounceAgrees(j: Joint, l: nat, j': Joint)
    requires Agree(j) && L.TasksOk(j.net) && Next(j, Announce(l), j')
    ensures Agree(j')
  {
    hide N.Next, L.Next, L.TasksOk, Agree, Unmoved, PhaseOf;
    var n := j.net.layers[l].stage.session;
    NodePhases(j.node, N.NetAnnounce(j.keys[n]), j'.node);
    AnnounceMoves(j.net, l, j'.net);
    AgreeSizes(j);
    TurnAgrees(j, n, N.Produced, N.Announced, j');
  }

  lemma SpawnAgrees(j: Joint, l: nat, j': Joint)
    requires Agree(j) && L.TasksOk(j.net) && Next(j, Spawn(l), j')
    ensures Agree(j')
  {
    hide N.Next, L.Next, L.TasksOk, Agree, Unmoved, PhaseOf;
    var n := j.net.layers[l].stage.session;
    NodePhases(j.node, N.NetSpawn(j.keys[n]), j'.node);
    SpawnMoves(j.net, l, j'.net);
    AgreeSizes(j);
    TurnAgrees(j, n, N.Announced, N.Running, j');
  }

  lemma FinishAgrees(j: Joint, step: JointStep, j': Joint)
    requires Agree(j) && step.Finish? && Next(j, step, j')
    ensures Agree(j')
  {
    hide N.Next, L.Next, Agree, Unmoved;
    NodePhases(j.node, step.how, j'.node);
    FinishMoves(j.net, step.from, j'.net);
    AgreeSizes(j);
    TurnAgrees(j, step.from.session, N.Running, N.Ended, j');
  }

  lemma AgreeSizes(j: Joint)
    requires Agree(j)
    ensures |j.keys| == |j.net.sessions|
  {
  }

  lemma NodeAgrees(j: Joint, st: N.Step, j': Joint)
    requires Agree(j) && Next(j, NodeOnly(st), j')
    ensures Agree(j')
  {
    hide N.Next;
    NodePhases(j.node, st, j'.node);
  }

  lemma NetStays(s: L.State, step: L.Step, s': L.State)
    requires L.TasksOk(s) && KeepsSessions(s, s')
    ensures forall m :: 0 <= m < |s.sessions| ==> Unmoved(m, s, s')
  {
    assert forall m :: 0 <= m < |s.sessions| ==> L.SessionOk(m, s.sessions[m], s.layers);
  }

  lemma NetAgrees(j: Joint, from: L.Step, j': Joint)
    requires Agree(j) && L.TasksOk(j.net) && Next(j, NetOnly(from), j')
    ensures Agree(j')
  {
    hide N.Next, L.Next, L.TasksOk, Unmoved, PhaseOf;
    NetKeepsSessions(j.net, from, j'.net);
    NetStays(j.net, from, j'.net);
    forall m | 0 <= m < |j.keys| ensures PhaseOf(m, j'.net.sessions[m], j'.net.layers, j'.node.phases[j'.keys[m]]) {
      assert Unmoved(m, j.net, j'.net);
      StaysPut(m, j.net, j'.net, j.node.phases[j.keys[m]]);
    }
  }

  lemma {:induction false} AlwaysAgree(run: Run, i: nat)
    requires IsRun(run) && i < |run.states|
    ensures Agree(run.states[i]) && L.TasksOk(run.states[i].net) && L.FlagOk(run.states[i].net)
  {
    hide N.Next, L.Next, N.Init, L.Init, Agree, L.TasksOk, L.FlagOk;
    if i == 0 {
      InitAgrees(run.states[0]);
    } else {
      AlwaysAgree(run, i - 1);
      var j, step, j' := run.states[i - 1], run.steps[i - 1], run.states[i];
      assert Next(j, step, j');
      NetStep(j, step, j');
      match step
      case Produce(_, _) => ProduceAgrees(j, step, j');
      case Announce(l) => AnnounceAgrees(j, l, j');
      case Spawn(l) => SpawnAgrees(j, l, j');
      case Finish(_, _) => FinishAgrees(j, step, j');
      case NetOnly(from) => NetAgrees(j, from, j');
      case NodeOnly(st) => NodeAgrees(j, st, j');
    }
  }

  lemma InitAgrees(j: Joint)
    requires N.Init(j.node) && L.Init(j.net) && j.keys == []
    ensures Agree(j) && L.TasksOk(j.net) && L.FlagOk(j.net)
  {
    L.InitEndable(j.net);
  }

  /** The netlayers' part of a joint step. */
  function NetPart(step: JointStep): Option<L.Step> {
    match step
    case Produce(from, _) => Some(from)
    case Announce(l) => Some(L.Announce(l))
    case Spawn(l) => Some(L.Spawn(l))
    case Finish(from, _) => Some(from)
    case NetOnly(from) => Some(from)
    case NodeOnly(_) => None
  }

  lemma NetStep(j: Joint, step: JointStep, j': Joint)
    requires Next(j, step, j') && L.TasksOk(j.net) && L.FlagOk(j.net)
    ensures L.TasksOk(j'.net) && L.FlagOk(j'.net)
    ensures L.Ended(j.net) || step == NetOnly(L.End) ==> L.Ended(j'.net)
  {
    hide N.Next, L.Next, L.TasksOk, L.FlagOk, L.Ended;
    match NetPart(step)
    case Some(from) =>
      L.StepKeepsTasks(j.net, from, j'.net);
      L.StepKeepsFlag(j.net, from, j'.net);
      if L.Ended(j.net) || from == L.End {
        L.EndedStep(j.net, from, j'.net);
      }
    case None =>
  }

  lemma {:induction false} StaysEnded(run: Run, i: nat, j: nat)
    requires IsRun(run) && i < j < |run.states| && run.steps[i] == NetOnly(L.End)
    ensures L.Ended(run.states[j].net)
    decreases j
  {
    hide N.Next, L.Next, N.Init, L.Init, L.Ended;
    AlwaysAgree(run, j - 1);
    if j - 1 > i {
      StaysEnded(run, i, j - 1);
    }
    NetStep(run.states[j - 1], run.steps[j - 1], run.states[j]);
  }

  /** After `end`, every session whose loop runs in the node has the change of the end flag unseen, and its end branch
      is enabled and stops it. */
  lemma EndReachesSessions(run: Run, i: nat, j: nat, k: Key) returns (n: nat)
    requires IsRun(run) && i < j < |run.states| && run.steps[i] == NetOnly(L.End)
    requires k in run.states[j].node.phases && run.states[j].node.phases[k] == N.Running
    ensures var s := run.states[j];
            && n < |s.keys| == |s.net.sessions| && s.keys[n] == k
            && s.net.flag && s.net.sessions[n].seen != s.net.version
            && exists net :: L.Next(s.net, L.SessionEndBranch(n), net) && net.sessions[n].stage == L.Done
  {
    hide N.Next, L.Next, N.Init, L.Init, L.Ended;
    AlwaysAgree(run, j);
    StaysEnded(run, i, j);
    var s := run.states[j];
    n :| n < |s.keys| && s.keys[n] == k;
    L.EndedReaches(s.net, 0, n);
  }

  /** When a netlayer has left by its end branch, the loops of all its sessions have ended in the node; so they take
      no fetch and report no abort any more. */
  lemma LeftSessionsEnded(run: Run, i: nat, n: nat)
    requires IsRun(run) && i < |run.states| && n < |run.states[i].net.sessions|
    requires run.states[i].net.sessions[n].layer < |run.states[i].net.layers|
    requires run.states[i].net.layers[run.states[i].net.sessions[n].layer].stage == L.Left(true)
    ensures var s := run.states[i];
            n < |s.keys| && s.keys[n] in s.node.phases && s.node.phases[s.keys[n]] == N.Ended
  {
    hide N.Next, L.Next, N.Init, L.Init;
    AlwaysAgree(run, i);
    var s := run.states[i].net;
    assert L.LayerOk(s.sessions[n].layer, s.layers[s.sessions[n].layer], s.sessions);
    assert L.SessionOk(n, s.sessions[n], s.layers);
  }
}
