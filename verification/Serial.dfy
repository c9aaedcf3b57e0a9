/** When a channel is exported to a session once: exactly as long as no connect looks the channel up between the
    lookup and the hook of another one of that session. Connects that run one after another never do. */
module Serial {
  import opened Foundation
  import opened Node
  import opened Growth
  import opened Fetching
  import opened Channels

  /** A channel that no fetch answers with; fetches are the only other way to export one. */
  ghost predicate Unfetched(data: map<Uuid, nat>, c: nat) {
    forall id :: id in data ==> data[id] != c
  }

  // ----- a position that is not yet remembered is with its connect task

  /** Between its export and its hook, a channel's position is with the connect task. */
  ghost predicate HookPending(connects: seq<ConnectTask>, c: nat, k: Key, p: nat) {
    exists n :: 0 <= n < |connects| && connects[n].session == k && connects[n].stage == HookingChannel(c, p)
  }

  ghost predicate Remembered(s: State) {
    forall c: nat, k, p: nat :: Unfetched(s.dataChannels, c) && Denotes(s.exports, k, p, ChannelRef(c)) ==>
      (c < |s.allChannels| && k in s.allChannels[c].exportedAt) || HookPending(s.connects, c, k, p)
  }

  /** Nothing is exported that a connect could export. */
  ghost predicate NoNewChannel(exports: Tables, exports': Tables, data: map<Uuid, nat>) {
    forall c: nat, k, p: nat :: Unfetched(data, c) && Denotes(exports', k, p, ChannelRef(c)) ==>
      Denotes(exports, k, p, ChannelRef(c))
  }

  lemma FetchExportsNone(s: State, step: Step, s': State)
    requires Sound(s) && FetchNext(s, step, s')
    ensures NoNewChannel(s.exports, s'.exports, s.dataChannels)
  {
    if step.FetchExport? {
      assert TaskSound(s.fetches[step.fetch], s.exports, s.dataChannels);
    } else {
      assert s'.exports == s.exports;
    }
  }

  lemma NetExportsNone(s: State, step: Step, s': State)
    requires NetNext(s, step, s')
    ensures NoNewChannel(s.exports, s'.exports, s.dataChannels)
  {
  }

  lemma ManagerExportsNone(s: State, step: Step, s': State)
    requires ManagerNext(s, step, s')
    ensures NoNewChannel(s.exports, s'.exports, s.dataChannels)
  {
    if step != RecvPortalRequest {
      assert s'.exports == s.exports;
    }
  }

  lemma SameExportsNone(exports: Tables, data: map<Uuid, nat>)
    ensures NoNewChannel(exports, exports, data)
  {
  }

  /** Hooks stay done: a channel's sessions are only ever added. */
  lemma HooksGrow(s: State, step: Step, s': State)
    requires FetchNext(s, step, s') || ChannelNext(s, step, s') || s'.allChannels == s.allChannels
    ensures |s.allChannels| <= |s'.allChannels|
    ensures forall c :: 0 <= c < |s.allChannels| ==>
              s.allChannels[c].exportedAt.Keys <= s'.allChannels[c].exportedAt.Keys
  {
  }

  /** A step outside connect calls exports no channel that they could export, and moves none of them. */
  lemma OutsideConnects(s: State, step: Step, s': State)
    requires Sound(s) && Next(s, step, s') && !PortalNext(s, step, s')
    ensures NoNewChannel(s.exports, s'.exports, s.dataChannels)
    ensures s'.connects == s.connects && s'.dataChannels == s.dataChannels && |s.allChannels| <= |s'.allChannels|
    ensures forall c :: 0 <= c < |s.allChannels| ==>
              s.allChannels[c].exportedAt.Keys <= s'.allChannels[c].exportedAt.Keys
  {
    hide NetNext, SessionNext, FetchNext, GatewayNext, ManagerNext, ChannelNext, PortalNext, NoNewChannel;
    StepFrame(s, step, s');
    HooksGrow(s, step, s');
    if FetchNext(s, step, s') {
      FetchExportsNone(s, step, s');
    } else if NetNext(s, step, s') {
      NetExportsNone(s, step, s');
    } else if ManagerNext(s, step, s') {
      ManagerExportsNone(s, step, s');
    } else {
      assert s'.exports == s.exports;
      SameExportsNone(s.exports, s.dataChannels);
    }
  }

  lemma PortalKeepsRemembered(s: State, step: Step, s': State)
    requires Remembered(s) && ObjectsValid(s) && PortalNext(s, step, s')
    ensures Remembered(s')
  {
    forall c: nat, k, p: nat | Unfetched(s'.dataChannels, c) && Denotes(s'.exports, k, p, ChannelRef(c))
      ensures (c < |s'.allChannels| && k in s'.allChannels[c].exportedAt) || HookPending(s'.connects, c, k, p)
    {
      if !Denotes(s.exports, k, p, ChannelRef(c)) {
        assert s'.connects[step.connect].stage == HookingChannel(c, p);
      } else if HookPending(s.connects, c, k, p) {
        var n :| 0 <= n < |s.connects| && s.connects[n].session == k && s.connects[n].stage == HookingChannel(c, p);
        assert s'.connects[n].stage == s.connects[n].stage || step == ConnectHook(n);
      }
    }
  }

  lemma {:induction false} AlwaysRemembered(run: Run, i: nat)
    requires IsRun(run) && i < |run.states|
    ensures Remembered(run.states[i])
  {
    hide NetNext, SessionNext, FetchNext, GatewayNext, ManagerNext, ChannelNext, PortalNext;
    if i == 0 {
    } else {
      AlwaysRemembered(run, i - 1);
      AlwaysValid(run, i - 1);
      AlwaysSound(run, i - 1);
      var s, step, s' := run.states[i - 1], run.steps[i - 1], run.states[i];
      if PortalNext(s, step, s') {
        PortalKeepsRemembered(s, step, s');
      } else {
        OutsideConnects(s, step, s');
      }
    }
  }

  // ----- claims

  /** A position at which a session has the channel, or a connect task that is about to give it one. */
  datatype Claim = ByTask(n: nat) | ByPosition(p: nat)

  ghost predicate Claims(s: State, c: nat, k: Key, x: Claim) {
    match x
    case ByTask(n) => n < |s.connects| && s.connects[n].session == k && s.connects[n].stage == Exporting(c)
    case ByPosition(p) => Denotes(s.exports, k, p, ChannelRef(c))
  }

  /** The channel is at one position of the session's table, or about to be, or at none. */
  ghost predicate Single(s: State, c: nat, k: Key) {
    forall x, y :: Claims(s, c, k, x) && Claims(s, c, k, y) ==> x == y
  }

  /** Between the lookup that found the channel unexported and the hook that remembers its position. */
  predicate Between(t: ConnectTask, c: nat) {
    t.stage == Exporting(c) || (t.stage.HookingChannel? && t.stage.channel == c)
  }

  /** A connect of session `k` finds channel `c` unexported while another one of `k` is between lookup and hook. */
  predicate Races(s: State, step: Step, c: nat, k: Key) {
    && step.ConnectLook? && var n := step.connect;
    && n < |s.connects| && s.connects[n].session == k && s.connects[n].stage == Looking(c)
    && c < |s.allChannels| && k !in s.allChannels[c].exportedAt
    && exists m :: 0 <= m < |s.connects| && m != n && s.connects[m].session == k && Between(s.connects[m], c)
  }

  lemma OutsideKeepsClaims(s: State, step: Step, s': State, c: nat, k: Key, x: Claim)
    requires Sound(s) && Unfetched(s.dataChannels, c) && Next(s, step, s') && !PortalNext(s, step, s')
    ensures Claims(s', c, k, x) <==> Claims(s, c, k, x)
  {
    hide NetNext, SessionNext, FetchNext, GatewayNext, ManagerNext, ChannelNext, PortalNext;
    StepGrows(s, step, s');
    OutsideConnects(s, step, s');
  }

  lemma LooksAreConnects(s: State, step: Step, s': State)
    requires Next(s, step, s') && step.ConnectLook?
    ensures PortalNext(s, step, s')
  {
  }

  /** A lookup that finds the channel unexported is a new claim. */
  ghost predicate FindsNone(s: State, step: Step, c: nat, k: Key) {
    && step.ConnectLook? && step.connect < |s.connects| && s.connects[step.connect].session == k
    && s.connects[step.connect].stage == Looking(c) && c < |s.allChannels| && k !in s.allChannels[c].exportedAt
  }

  ghost predicate Exports(s: State, step: Step, c: nat, k: Key) {
    && step.ConnectExport? && step.connect < |s.connects| && s.connects[step.connect].session == k
    && s.connects[step.connect].stage == Exporting(c)
  }

  lemma ExportDenotes(exports: Tables, session: Key, target: Object, k: Key, p: nat, other: Object)
    ensures Denotes(Export(exports, session, target), k, p, other) <==>
            Denotes(exports, k, p, other)
            || (session in exports && k == session && p == |exports[session]| && other == target)
  {
  }

  lemma NewChannelUnclaimed(s: State, k: Key, x: Claim)
    requires ObjectsValid(s)
    ensures !Claims(s, |s.allChannels|, k, x)
  {
  }

  /** Connect calls make a claim only by such a lookup, and for a channel that is new; an export turns the task's
      claim into one by position. */
  lemma PortalMovesClaims(s: State, step: Step, s': State, c: nat, k: Key, x: Claim)
    requires ObjectsValid(s) && PortalNext(s, step, s')
    requires !(step.RemoteConnect? && c == |s.allChannels|)
    ensures FindsNone(s, step, c, k) ==> (Claims(s', c, k, x) <==> x == ByTask(step.connect) || Claims(s, c, k, x))
    ensures Exports(s, step, c, k) ==>
              k in s.exports && (Claims(s', c, k, x) <==>
                x == ByPosition(|s.exports[k]|) || (x != ByTask(step.connect) && Claims(s, c, k, x)))
    ensures !FindsNone(s, step, c, k) && !Exports(s, step, c, k) ==> (Claims(s', c, k, x) <==> Claims(s, c, k, x))
  {
    if step.ConnectExport? && x.ByPosition? {
      var t := s.connects[step.connect];
      ExportDenotes(s.exports, t.session, ChannelRef(t.stage.channel), k, x.p, ChannelRef(c));
    }
  }

  /** In a lookup that finds none, another claim is there exactly when the lookup races. */
  lemma RacesIffClaimed(s: State, step: Step, c: nat, k: Key)
    requires Remembered(s) && PositionsSound(s) && Unfetched(s.dataChannels, c) && FindsNone(s, step, c, k)
    ensures Races(s, step, c, k) <==> exists x :: Claims(s, c, k, x)
    ensures !Claims(s, c, k, ByTask(step.connect))
  {
    if Races(s, step, c, k) {
      var m :| 0 <= m < |s.connects| && m != step.connect && s.connects[m].session == k && Between(s.connects[m], c);
      assert ConnectSound(s.connects[m], s.exports);
      assert Claims(s, c, k, if s.connects[m].stage.Exporting? then ByTask(m) else ByPosition(s.connects[m].stage.pos));
    }
    if x :| Claims(s, c, k, x) {
      match x
      case ByTask(m) => assert Between(s.connects[m], c);
      case ByPosition(p) =>
        assert HookPending(s.connects, c, k, p);
        var m :| 0 <= m < |s.connects| && s.connects[m].session == k && s.connects[m].stage == HookingChannel(c, p);
        assert Between(s.connects[m], c);
    }
  }

  lemma NewChannelSingle(s: State, step: Step, s': State, k: Key)
    requires ObjectsValid(s) && PortalNext(s, step, s') && step.RemoteConnect?
    ensures Single(s', |s.allChannels|, k) && Single(s, |s.allChannels|, k) && !Races(s, step, |s.allChannels|, k)
  {
    forall x ensures !Claims(s, |s.allChannels|, k, x) {
      NewChannelUnclaimed(s, k, x);
    }
    assert forall x :: Claims(s', |s.allChannels|, k, x) ==> x == ByTask(|s.connects|);
  }

  lemma PortalSingle(s: State, step: Step, s': State, c: nat, k: Key)
    requires ObjectsValid(s) && Remembered(s) && PositionsSound(s) && Unfetched(s.dataChannels, c)
    requires PortalNext(s, step, s')
    ensures Single(s', c, k) <==> Single(s, c, k) && !Races(s, step, c, k)
  {
    if step.RemoteConnect? && c == |s.allChannels| {
      NewChannelSingle(s, step, s', k);
    } else {
      forall x
        ensures FindsNone(s, step, c, k) ==> (Claims(s', c, k, x) <==> x == ByTask(step.connect) || Claims(s, c, k, x))
        ensures Exports(s, step, c, k) ==>
                  k in s.exports && (Claims(s', c, k, x) <==>
                    x == ByPosition(|s.exports[k]|) || (x != ByTask(step.connect) && Claims(s, c, k, x)))
        ensures !FindsNone(s, step, c, k) && !Exports(s, step, c, k) ==> (Claims(s', c, k, x) <==> Claims(s, c, k, x))
      {
        PortalMovesClaims(s, step, s', c, k, x);
      }
      if FindsNone(s, step, c, k) {
        RacesIffClaimed(s, step, c, k);
        hide PortalNext, ObjectsValid, Remembered, PositionsSound, Claims, Races, FindsNone, Exports;
        assert Claims(s', c, k, ByTask(step.connect));
        assert forall x :: Claims(s, c, k, x) ==> Claims(s', c, k, x) && x != ByTask(step.connect);
      } else if Exports(s, step, c, k) {
        assert Claims(s, c, k, ByTask(step.connect)) && !Claims(s, c, k, ByPosition(|s.exports[k]|));
        assert !Races(s, step, c, k);
        hide PortalNext, ObjectsValid, Remembered, PositionsSound, Claims, Races, FindsNone, Exports;
        assert Claims(s', c, k, ByPosition(|s.exports[k]|));
        if x :| Claims(s, c, k, x) && x != ByTask(step.connect) {
          assert Claims(s', c, k, x);
        }
      } else {
        assert !Races(s, step, c, k);
      }
    }
  }

  lemma StepSingle(s: State, step: Step, s': State, c: nat, k: Key)
    requires Valid(s) && Sound(s) && Remembered(s) && PositionsSound(s) && Unfetched(s.dataChannels, c)
    requires Next(s, step, s')
    ensures Single(s', c, k) <==> Single(s, c, k) && !Races(s, step, c, k)
  {
    if PortalNext(s, step, s') {
      PortalSingle(s, step, s', c, k);
    } else {
      if step.ConnectLook? {
        LooksAreConnects(s, step, s');
      }
      hide Next, Claims;
      forall x {
        OutsideKeepsClaims(s, step, s', c, k, x);
      }
    }
  }

  /** Over any run: a channel that no fetch answers with is exported to a session, or about to be, once, exactly as
      long as no connect raced. */
  lemma {:induction false} SingleIff(run: Run, i: nat, c: nat, k: Key)
    requires IsRun(run) && i < |run.states| && Unfetched(run.states[i].dataChannels, c)
    ensures Single(run.states[i], c, k) <==> forall j :: 0 <= j < i ==> !Races(run.states[j], run.steps[j], c, k)
  {
    hide Next, Single, Races;
    if i == 0 {
      StartsSingle(run.states[0], c, k);
    } else {
      RunGrows(run, i - 1, i);
      SingleIff(run, i - 1, c, k);
      AlwaysValid(run, i - 1);
      AlwaysSound(run, i - 1);
      AlwaysRemembered(run, i - 1);
      AlwaysPositionsSound(run, i - 1);
      StepSingle(run.states[i - 1], run.steps[i - 1], run.states[i], c, k);
    }
  }

  lemma StartsSingle(s: State, c: nat, k: Key)
    requires Init(s)
    ensures Single(s, c, k)
  {
  }

  /** The channel is at no more than one position of the session's table. */
  ghost predicate ExportedOnce(s: State, c: nat, k: Key) {
    forall p: nat, q: nat ::
      Denotes(s.exports, k, p, ChannelRef(c)) && Denotes(s.exports, k, q, ChannelRef(c)) ==> p == q
  }

  /** Connect call `m` of session `k` returned position `p` of channel `c`. */
  ghost predicate Returned(s: State, m: int, k: Key, c: nat, p: nat) {
    0 <= m < |s.connects| && s.connects[m].session == k && s.connects[m].stage == Connected(c, p)
  }

  /** So whenever no connect of the session is about to export the channel, it is at most once in the session's
      table exactly if no connect raced; and then all connects of the session returned the same position. */
  lemma ExportedOnceIff(run: Run, i: nat, c: nat, k: Key)
    requires IsRun(run) && i < |run.states| && Unfetched(run.states[i].dataChannels, c)
    requires forall n :: 0 <= n < |run.states[i].connects| && run.states[i].connects[n].session == k ==>
               run.states[i].connects[n].stage != Exporting(c)
    ensures ExportedOnce(run.states[i], c, k) <==>
            forall j :: 0 <= j < i ==> !Races(run.states[j], run.steps[j], c, k)
    ensures ExportedOnce(run.states[i], c, k) ==>
              forall m, n, p: nat, q: nat ::
                Returned(run.states[i], m, k, c, p) && Returned(run.states[i], n, k, c, q) ==> p == q
  {
    hide Next, Races;
    SingleIff(run, i, c, k);
    AlwaysPositionsSound(run, i);
    var s := run.states[i];
    forall m, p: nat | Returned(s, m, k, c, p) ensures Denotes(s.exports, k, p, ChannelRef(c)) {
      assert ConnectSound(s.connects[m], s.exports);
    }
    assert forall p: nat :: Denotes(s.exports, k, p, ChannelRef(c)) <==> Claims(s, c, k, ByPosition(p));
  }

  // ----- connects one after another

  ghost predicate Finished(t: ConnectTask) {
    t.stage.Unrecognized? || t.stage.Connected?
  }

  ghost predicate Idle(connects: seq<ConnectTask>, k: Key) {
    forall n :: 0 <= n < |connects| && connects[n].session == k ==> Finished(connects[n])
  }

  /** No connect starts on a session while another is under way there. */
  ghost predicate SerialStep(s: State, step: Step) {
    step.CallConnect? || step.RemoteConnect? ==> Idle(s.connects, step.session)
  }

  ghost predicate IsSerialRun(run: Run) {
    IsRun(run) && forall i :: 0 <= i < |run.steps| ==> SerialStep(run.states[i], run.steps[i])
  }

  ghost predicate OneAtATime(connects: seq<ConnectTask>) {
    forall m, n | 0 <= m < |connects| && 0 <= n < |connects| && connects[m].session == connects[n].session ::
      !Finished(connects[m]) && !Finished(connects[n]) ==> m == n
  }

  lemma PortalKeepsOneAtATime(s: State, step: Step, s': State)
    requires OneAtATime(s.connects) && PortalNext(s, step, s') && SerialStep(s, step)
    ensures OneAtATime(s'.connects)
  {
  }

  lemma {:induction false} AlwaysOneAtATime(run: Run, i: nat)
    requires IsSerialRun(run) && i < |run.states|
    ensures OneAtATime(run.states[i].connects)
  {
    hide NetNext, SessionNext, FetchNext, GatewayNext, ManagerNext, ChannelNext, PortalNext;
    if i == 0 {
    } else {
      AlwaysOneAtATime(run, i - 1);
      var s, step, s' := run.states[i - 1], run.steps[i - 1], run.states[i];
      StepFrame(s, step, s');
      if PortalNext(s, step, s') {
        PortalKeepsOneAtATime(s, step, s');
      }
    }
  }

  /** When connects on each session run one after another none races, so a channel is exported to a session at most
      once, and all connects of the session return that same position. */
  lemma SerialConnectsAgree(run: Run, i: nat, c: nat, k: Key, p: nat, q: nat, m: nat, n: nat)
    requires IsSerialRun(run) && i < |run.states| && Unfetched(run.states[i].dataChannels, c)
    ensures forall j :: 0 <= j < i ==> !Races(run.states[j], run.steps[j], c, k)
    ensures var s := run.states[i];
            && (Denotes(s.exports, k, p, ChannelRef(c)) && Denotes(s.exports, k, q, ChannelRef(c)) ==> p == q)
            && ((m < |s.connects| && n < |s.connects| && s.connects[m].session == s.connects[n].session == k
                 && s.connects[m].stage == Connected(c, p) && s.connects[n].stage == Connected(c, q)) ==> p == q)
  {
    hide Next;
    forall j | 0 <= j < i ensures !Races(run.states[j], run.steps[j], c, k) {
      AlwaysOneAtATime(run, j);
    }
    SingleIff(run, i, c, k);
    var s := run.states[i];
    assert Denotes(s.exports, k, p, ChannelRef(c)) <==> Claims(s, c, k, ByPosition(p));
    assert Denotes(s.exports, k, q, ChannelRef(c)) <==> Claims(s, c, k, ByPosition(q));
    PositionsDenoteChannels(run, i, 0, k, m);
    PositionsDenoteChannels(run, i, 0, k, n);
  }

  // ----- a race

  function Racer(k: Key, portal: nat, id: Uuid, stage: ConnectStage): ConnectTask {
    ConnectTask(k, Incoming(portal, 0), id, stage)
  }

  /** Two connect tasks of session `k` at the same stage. */
  predicate Racing(s: State, k: Key, portal: nat, id: Uuid, n: nat, stage: ConnectStage) {
    n + 2 == |s.connects| && s.connects[n] == s.connects[n + 1] == Racer(k, portal, id, stage)
  }

  lemma CallTwice(s: State, k: Key, at: nat, portal: nat, id: Uuid) returns (mid: State, end: State)
    requires Denotes(s.exports, k, at, PortalRef(portal))
    ensures PortalNext(s, CallConnect(k, at, id, 0), mid) && PortalNext(mid, CallConnect(k, at, id, 0), end)
    ensures end == s.(connects := end.connects) && Racing(end, k, portal, id, |s.connects|, Finding)
  {
    mid := s.(connects := s.connects + [Racer(k, portal, id, Finding)]);
    end := mid.(connects := mid.connects + [Racer(k, portal, id, Finding)]);
  }

  lemma FindTwice(s: State, k: Key, portal: nat, id: Uuid, n: nat) returns (mid: State, end: State)
    requires k in s.exports && id in s.channels && Racing(s, k, portal, id, n, Finding)
    ensures PortalNext(s, ConnectFind(n), mid) && PortalNext(mid, ConnectFind(n + 1), end)
    ensures end == s.(connects := end.connects) && Racing(end, k, portal, id, n, Looking(s.channels[id]))
  {
    mid := s.(connects := ConnectTo(s.connects, n, Looking(s.channels[id])));
    end := mid.(connects := ConnectTo(mid.connects, n + 1, Looking(s.channels[id])));
  }

  lemma LookTwice(s: State, k: Key, portal: nat, id: Uuid, n: nat, c: nat) returns (mid: State, end: State)
    requires k in s.exports && Racing(s, k, portal, id, n, Looking(c))
    requires c < |s.allChannels| && k !in s.allChannels[c].exportedAt
    ensures PortalNext(s, ConnectLook(n), mid) && PortalNext(mid, ConnectLook(n + 1), end)
    ensures end == s.(connects := end.connects) && Racing(end, k, portal, id, n, Exporting(c))
  {
    mid := s.(connects := ConnectTo(s.connects, n, Exporting(c)));
    end := mid.(connects := ConnectTo(mid.connects, n + 1, Exporting(c)));
  }

  lemma ExportTwice(s: State, k: Key, portal: nat, id: Uuid, n: nat, c: nat) returns (mid: State, end: State)
    requires k in s.exports && Racing(s, k, portal, id, n, Exporting(c))
    ensures PortalNext(s, ConnectExport(n), mid) && PortalNext(mid, ConnectExport(n + 1), end)
    ensures Denotes(end.exports, k, |s.exports[k]|, ChannelRef(c))
    ensures Denotes(end.exports, k, |s.exports[k]| + 1, ChannelRef(c))
  {
    mid := s.(connects := ConnectTo(s.connects, n, HookingChannel(c, |s.exports[k]|)),
              exports := Export(s.exports, k, ChannelRef(c)));
    end := mid.(connects := ConnectTo(mid.connects, n + 1, HookingChannel(c, |mid.exports[k]|)),
                exports := Export(mid.exports, k, ChannelRef(c)));
  }

  /** Two calls that race do not agree: from any state where a session has a portal and a registered channel
      is not yet exported to it, two calls of that session can export the channel twice. */
  lemma RacingConnectsExportTwice(s: State, k: Key, at: nat, portal: nat, id: Uuid)
    returns (states: seq<State>, steps: seq<Step>)
    requires Denotes(s.exports, k, at, PortalRef(portal)) && id in s.channels
    requires s.channels[id] < |s.allChannels| && k !in s.allChannels[s.channels[id]].exportedAt
    ensures |states| == |steps| + 1 && states[0] == s
    ensures forall i :: 0 <= i < |steps| ==> Next(states[i], steps[i], states[i + 1])
    ensures var (exports, n) := (states[|steps|].exports, |s.exports[k]|);
            Denotes(exports, k, n, ChannelRef(s.channels[id])) && Denotes(exports, k, n + 1, ChannelRef(s.channels[id]))
  {
    hide NetNext, SessionNext, FetchNext, GatewayNext, ManagerNext, ChannelNext, PortalNext;
    var (c, n) := (s.channels[id], |s.connects|);
    var s1, s2 := CallTwice(s, k, at, portal, id);
    var s3, s4 := FindTwice(s2, k, portal, id, n);
    var s5, s6 := LookTwice(s4, k, portal, id, n, c);
    var s7, s8 := ExportTwice(s6, k, portal, id, n, c);
    states := [s, s1, s2, s3, s4, s5, s6, s7, s8];
    steps := [CallConnect(k, at, id, 0), CallConnect(k, at, id, 0), ConnectFind(n), ConnectFind(n + 1),
              ConnectLook(n), ConnectLook(n + 1), ConnectExport(n), ConnectExport(n + 1)];
    assert Next(s, steps[0], s1) && Next(s1, steps[1], s2);
    assert Next(s2, steps[2], s3) && Next(s3, steps[3], s4);
    assert Next(s4, steps[4], s5) && Next(s5, steps[5], s6);
    assert Next(s6, steps[6], s7) && Next(s7, steps[7], s8);
  }
}
