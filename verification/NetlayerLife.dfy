/** The life of a netlayer, from a new manager to its end, with the manager's own methods: it is registered, accepts a
    session, serves a request, sees the end flag and leaves. */
module NetlayerLife {
  import opened Foundation
  import opened Paths
  import opened Netlayers
  import opened NetlayerLoops

  /** The methods called so far have led from a new manager to where it is. */
  ghost predicate Led(run: Run, manager: NetlayerManager)
    reads manager
  {
    IsRun(run) && Last(run.states) == manager.View()
  }

  lemma OneStep(run: Run, step: Step, s: State) returns (longer: Run)
    requires IsRun(run) && Next(Last(run.states), step, s)
    ensures IsRun(longer) && Last(longer.states) == s && FlagOk(s) && TasksOk(s)
  {
    hide Next;
    LeadsPlus(Next, Last(run.states), [], Last(run.states), step, s);
    longer := StretchOfRun(run, [] + [step], s);
  }

  /** One netlayer, one request to it, and the manager is built. */
  method Start(transport: string) returns (manager: NetlayerManager, l: nat, ghost run: Run)
    ensures fresh(manager) && Led(run, manager)
    ensures manager.built && manager.senderAlive && !manager.flag && l < |manager.layers| && manager.answers == []
    ensures manager.layers[l].stage == Selecting && manager.layers[l].queue == [0] && manager.layers[l].taken == 0
  {
    hide Next, FlagOk, TasksOk;
    manager := new NetlayerManager();
    run := Run([manager.View()], []);
    l := manager.RegisterLayer(transport);
    run := OneStep(run, Register(transport), manager.View());
    var request := manager.Request(transport);
    run := OneStep(run, RequestConnect(transport), manager.View());
    manager.Build();
    run := OneStep(run, Step.Build, manager.View());
  }

  /** The netlayer accepts a session and serves the request. */
  method Serve(manager: NetlayerManager, l: nat, ghost run0: Run) returns (connected: bool, ghost run: Run)
    requires Led(run0, manager) && l < |manager.layers| && manager.layers[l].stage == Selecting
    requires manager.layers[l].taken < |manager.layers[l].queue|
    modifies manager`layers, manager`sessions, manager`answers
    ensures Led(run, manager) && FlagOk(manager.View()) && TasksOk(manager.View())
    ensures l < |manager.layers| && manager.layers[l].stage == Selecting
    ensures |manager.sessions| == old(|manager.sessions|) + if connected then 2 else 1
    ensures manager.answers == old(manager.answers + [manager.layers[l].queue[manager.layers[l].taken]])
  {
    hide Next, FlagOk, TasksOk;
    var accepting := manager.AcceptSession(l);
    run := StretchOfRun(run0, accepting, manager.View());
    ghost var serving;
    connected, serving := manager.ServeRequest(l);
    run := StretchOfRun(run, serving, manager.View());
  }

  /** The manager ends: the netlayer sees it, joins its sessions and leaves with all of them done. */
  method Finish(manager: NetlayerManager, l: nat, ghost run0: Run) returns (ghost run: Run)
    requires Led(run0, manager) && manager.built && manager.senderAlive && !manager.flag
    requires l < |manager.layers| && manager.layers[l].stage == Selecting
    modifies manager`flag, manager`version, manager`layers, manager`sessions
    ensures Led(run, manager) && manager.flag && l < |manager.layers| && manager.layers[l].stage == Left(true)
    ensures |manager.sessions| == old(|manager.sessions|)
    ensures forall n :: 0 <= n < |manager.sessions| && manager.sessions[n].layer == l ==>
              manager.sessions[n].stage == Done
  {
    hide Next, TasksOk;
    var ok := manager.End();
    run := OneStep(run0, Step.End, manager.View());
    TasksSpawned(manager.View(), l);
    var leaving := manager.Shutdown(l);
    run := StretchOfRun(run, leaving, manager.View());
    LeftMeansDone(manager.View(), l);
  }

  /** All of it, from nothing. */
  method Live(transport: string) returns (manager: NetlayerManager, l: nat, ghost run: Run)
    ensures fresh(manager) && Led(run, manager) && l < |manager.layers|
    ensures manager.layers[l].stage == Left(true) && manager.answers == [0] && |manager.sessions| >= 1
    ensures forall n :: 0 <= n < |manager.sessions| && manager.sessions[n].layer == l ==>
              manager.sessions[n].stage == Done
  {
    hide Next, IsRun, FlagOk, TasksOk;
    manager, l, run := Start(transport);
    var connected;
    connected, run := Serve(manager, l, run);
    run := Finish(manager, l, run);
  }
}
