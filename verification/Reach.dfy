/** The node and the broadcasts of one of its channels as one system: the outbox that a connect call installs in the
    channel is the one that broadcasts find. So a broadcast reaches only sessions that were authenticated. */
module Reach {
  import opened Foundation
  import opened Paths
  import N = Node
  import C = Broadcast
  import Growth
  import Authority

  datatype Joint = Joint(node: N.State, cast: C.State)

  datatype JointStep = Both(connect: nat) | NodeOnly(step: N.Step) | CastOnly(move: C.Step)

  /** The step installs an outbox in channel `c`. */
  predicate InstallsOn(s: N.State, step: N.Step, c: nat) {
    && step.ConnectInstall? && step.connect < |s.connects|
    && s.connects[step.connect].stage.Installing? && s.connects[step.connect].stage.channel == c
  }

  /** The two meet only where an outbox is installed in channel `c`. */
  ghost predicate Next(c: nat, j: Joint, step: JointStep, j': Joint) {
    match step
    case Both(n) =>
      && InstallsOn(j.node, N.ConnectInstall(n), c) && N.Next(j.node, N.ConnectInstall(n), j'.node)
      && C.Next(j.cast, C.Connect(j.node.connects[n].session), j'.cast)
    case NodeOnly(st) => !InstallsOn(j.node, st, c) && N.Next(j.node, st, j'.node) && j'.cast == j.cast
    case CastOnly(st) => !st.Connect? && C.Next(j.cast, st, j'.cast) && j'.node == j.node
  }

  datatype Run = Run(states: seq<Joint>, steps: seq<JointStep>)

  ghost predicate IsRun(c: nat, run: Run) {
    && |run.states| == |run.steps| + 1
    && N.Init(run.states[0].node) && C.Init(run.states[0].cast)
    && forall i :: 0 <= i < |run.steps| ==> Next(c, run.states[i], run.steps[i], run.states[i + 1])
  }

  // ----- each part of a joint run is a run

  /** The node's steps among those of a joint run. */
  function NodeSteps(steps: seq<JointStep>): seq<N.Step> {
    if steps == [] then []
    else
      NodeSteps(Front(steps)) +
      match Last(steps)
      case Both(n) => [N.ConnectInstall(n)]
      case NodeOnly(st) => [st]
      case CastOnly(_) => []
  }

  /** The node's part of a joint run: its steps are the node's, from the same initial state to the same state. */
  ghost predicate NodePart(run: Run, i: nat, r: N.Run) {
    && i <= |run.steps| && i < |run.states| && N.IsRun(r)
    && r.steps == NodeSteps(run.steps[..i]) && r.states[0] == run.states[0].node && Last(r.states) == run.states[i].node
  }

  lemma {:induction false} NodeRunOf(c: nat, run: Run, i: nat) returns (r: N.Run)
    requires IsRun(c, run) && i < |run.states|
    ensures NodePart(run, i, r)
  {
    hide N.Next, C.Next, N.Init;
    if i == 0 {
      r := N.Run([run.states[0].node], []);
    } else {
      r := NodeRunOf(c, run, i - 1);
      assert Next(c, run.states[i - 1], run.steps[i - 1], run.states[i]);
      assert Front(run.steps[..i]) == run.steps[..i - 1];
      match run.steps[i - 1]
      case Both(n) => r := N.Run(r.states + [run.states[i].node], r.steps + [N.ConnectInstall(n)]);
      case NodeOnly(st) => r := N.Run(r.states + [run.states[i].node], r.steps + [st]);
      case CastOnly(_) => assert NodeSteps(run.steps[..i]) == r.steps + [];
    }
  }

  lemma {:induction false} CastRunOf(c: nat, run: Run, i: nat) returns (r: C.Run)
    requires IsRun(c, run) && i < |run.states|
    ensures C.IsRun(r) && Last(r.states) == run.states[i].cast
  {
    hide N.Next, C.Next, C.Init;
    if i == 0 {
      r := C.Run([run.states[0].cast], []);
    } else {
      r := CastRunOf(c, run, i - 1);
      assert Next(c, run.states[i - 1], run.steps[i - 1], run.states[i]);
      match run.steps[i - 1]
      case Both(n) =>
        var k := run.states[i - 1].node.connects[n].session;
        r := C.Run(r.states + [run.states[i].cast], r.steps + [C.Connect(k)]);
      case NodeOnly(_) =>
      case CastOnly(st) => r := C.Run(r.states + [run.states[i].cast], r.steps + [st]);
    }
  }

  // ----- the same sessions

  /** The sessions that have an outbox in channel `c`. */
  function Connected(s: N.State, c: nat): set<Key> {
    if c < |s.allChannels| then s.allChannels[c].outboxes.Keys else {}
  }

  lemma InstallConnects(s: N.State, step: N.Step, s': N.State, c: nat)
    requires N.Next(s, step, s') && InstallsOn(s, step, c)
    ensures Connected(s', c) == Connected(s, c) + {s.connects[step.connect].session}
  {
  }

  lemma FetchConnectsNone(s: N.State, step: N.Step, s': N.State, c: nat)
    requires N.FetchNext(s, step, s')
    ensures Connected(s', c) == Connected(s, c)
  {
    hide N.FetchNext;
    Growth.FetchKeepsOutboxes(s, step, s');
  }

  lemma ChannelConnectsNone(s: N.State, step: N.Step, s': N.State, c: nat)
    requires N.ChannelNext(s, step, s') || (N.PortalNext(s, step, s') && !InstallsOn(s, step, c))
    ensures Connected(s', c) == Connected(s, c)
  {
  }

  lemma OtherConnectsNone(s: N.State, step: N.Step, s': N.State, c: nat)
    requires N.Next(s, step, s') && !InstallsOn(s, step, c)
    ensures Connected(s', c) == Connected(s, c)
  {
    hide N.NetNext, N.SessionNext, N.FetchNext, N.GatewayNext, N.ManagerNext, N.ChannelNext, N.PortalNext;
    Growth.StepFrame(s, step, s');
    if N.FetchNext(s, step, s') {
      FetchConnectsNone(s, step, s', c);
    } else if N.ChannelNext(s, step, s') || N.PortalNext(s, step, s') {
      ChannelConnectsNone(s, step, s', c);
    }
  }

  lemma CastConnects(s: C.State, step: C.Step, s': C.State)
    requires C.Next(s, step, s')
    ensures s'.outboxes.Keys == s.outboxes.Keys + if step.Connect? then {step.session} else {}
    ensures if step.Connect? then |s'.all| == |s.all| + 1 && s'.all[|s.all|].session == step.session
            else |s'.all| == |s.all|
    ensures forall o :: 0 <= o < |s.all| ==> s'.all[o].session == s.all[o].session
  {
  }

  lemma InitConnectsNone(s: N.State, c: nat)
    requires N.Init(s)
    ensures Connected(s, c) == {}
  {
  }

  /** In every joint run, broadcasts have an outbox for exactly the sessions that the node has one for. */
  lemma {:induction false} SameSessions(c: nat, run: Run, i: nat)
    requires IsRun(c, run) && i < |run.states|
    ensures run.states[i].cast.outboxes.Keys == Connected(run.states[i].node, c)
  {
    hide N.Next, C.Next, N.Init;
    if i == 0 {
      InitConnectsNone(run.states[0].node, c);
    } else {
      SameSessions(c, run, i - 1);
      var (j, step, j') := (run.states[i - 1], run.steps[i - 1], run.states[i]);
      assert Next(c, j, step, j');
      match step
      case Both(n) =>
        InstallConnects(j.node, N.ConnectInstall(n), j'.node, c);
        CastConnects(j.cast, C.Connect(j.node.connects[n].session), j'.cast);
      case NodeOnly(st) => OtherConnectsNone(j.node, st, j'.node, c);
      case CastOnly(st) => CastConnects(j.cast, st, j'.cast);
    }
  }

  // ----- only sessions with authority

  /** The node's run `r` installed an outbox in channel `c` for session `k`, by an unbroken chain from a signature
      that its gateway verified on that session. */
  ghost predicate Authorized(r: N.Run, c: nat, k: Key) {
    exists outbox, i1: nat, i2: nat, i3: nat, i4: nat, a: nat, portal: nat, n: nat ::
      && N.IsRun(r) && Authority.HasOutbox(Last(r.states), c, k, outbox)
      && Authority.Chain(r, c, k, outbox, i1, i2, i3, i4, a, portal, n)
  }

  /** The step of the joint run that made outbox `o`. */
  lemma {:induction false} MadeAt(c: nat, run: Run, i: nat, o: nat) returns (j: nat)
    requires IsRun(c, run) && i < |run.states| && o < |run.states[i].cast.all|
    ensures j < i && run.steps[j].Both? && o < |run.states[j + 1].cast.all|
    ensures run.states[j].node.connects != [] && run.steps[j].connect < |run.states[j].node.connects|
    ensures run.states[i].cast.all[o].session == run.states[j].node.connects[run.steps[j].connect].session
  {
    hide N.Next, C.Next, N.Init;
    var (s, step, s') := (run.states[i - 1], run.steps[i - 1], run.states[i]);
    assert Next(c, s, step, s');
    match step {
      case Both(n) => CastConnects(s.cast, C.Connect(s.node.connects[n].session), s'.cast);
      case CastOnly(st) => CastConnects(s.cast, st, s'.cast);
      case NodeOnly(_) =>
    }
    if o < |s.cast.all| {
      j := MadeAt(c, run, i - 1, o);
    } else {
      j := i - 1;
    }
  }

  lemma InstalledOutbox(s: N.State, step: N.Step, s': N.State, c: nat) returns (outbox: N.Outbox)
    requires N.Next(s, step, s') && InstallsOn(s, step, c)
    ensures Authority.HasOutbox(s', c, s.connects[step.connect].session, outbox)
  {
    outbox := s'.allChannels[c].outboxes[s.connects[step.connect].session];
  }

  /** Every outbox that a broadcast of the channel ever finds belongs to a session that was authorized in this very
      joint run: the node's own steps up to some state of it, not later than this one, have the whole chain. */
  lemma BroadcastReachesAuthorized(c: nat, run: Run, i: nat, o: nat) returns (j: nat, r: N.Run)
    requires IsRun(c, run) && i < |run.states| && o < |run.states[i].cast.all|
    ensures j <= i && NodePart(run, j, r)
    ensures Authorized(r, c, run.states[i].cast.all[o].session)
  {
    hide N.Next, C.Next, N.Init;
    var m := MadeAt(c, run, i, o);
    j := m + 1;
    r := NodeRunOf(c, run, j);
    assert Next(c, run.states[m], run.steps[m], run.states[j]);
    var outbox := InstalledOutbox(run.states[m].node, N.ConnectInstall(run.steps[m].connect), run.states[j].node, c);
    var k := run.states[i].cast.all[o].session;
    var i1, i2, i3, i4, a, portal, n := Authority.OutboxAuthority(r, |r.steps|, c, k, outbox);
    assert Authority.Chain(r, c, k, outbox, i1, i2, i3, i4, a, portal, n);
  }

  /** What is proved of broadcasts alone holds in the joint run: for every outbox of an authorized session, the
      messages delivered are a contiguous run of the owner's messages. */
  lemma DeliversRunJointly(c: nat, run: Run, i: nat, o: nat) returns (first: nat)
    requires IsRun(c, run) && i < |run.states| && o < |run.states[i].cast.all|
    ensures var (sent, wire) := (run.states[i].cast.sent, run.states[i].cast.all[o].wire);
            first + |wire| <= |sent| && wire == sent[first..first + |wire|]
  {
    hide N.Next, C.Next, N.Init;
    var r := CastRunOf(c, run, i);
    first := C.DeliversRun(r, |r.steps|, o);
  }
}
