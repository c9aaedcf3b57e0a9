/** The `exported` hook on the way of a fetch: a channel that a session has fetched knows where it is exported to that
    session, so a connect of the session finds it and exports nothing. */
module Hooks {
  import opened Foundation
  import opened Node
  import opened Growth
  import opened Fetching

  /** What is at position `pos` of session `k`, if it is a channel, remembers a position of `k`. */
  ghost predicate Told(s: State, k: Key, pos: nat) {
    && k in s.exports && pos < |s.exports[k]| && var target := s.exports[k][pos];
    && (target.ChannelRef? ==>
          target.channel < |s.allChannels| && k in s.allChannels[target.channel].exportedAt)
  }

  ghost predicate TaskTold(s: State, t: FetchTask) {
    match t.stage
    case Caching(pos) => Told(s, t.session, pos)
    case Fulfilling(pos) => Told(s, t.session, pos)
    case _ => true
  }

  ghost predicate TasksTold(s: State) {
    forall f :: 0 <= f < |s.fetches| ==> TaskTold(s, s.fetches[f])
  }

  ghost predicate RegistriesTold(s: State) {
    forall k, swiss :: k in s.registries && swiss in s.registries[k] ==> Told(s, k, s.registries[k][swiss])
  }

  ghost predicate AllTold(s: State) {
    TasksTold(s) && RegistriesTold(s)
  }

  lemma ToldGrows(s: State, s': State, k: Key, pos: nat)
    requires Grows(s, s') && Told(s, k, pos)
    ensures Told(s', k, pos)
  {
  }

  lemma TaskGrows(s: State, s': State, t: FetchTask)
    requires Grows(s, s') && TaskTold(s, t)
    ensures TaskTold(s', t)
  {
    match t.stage
    case Caching(pos) => ToldGrows(s, s', t.session, pos);
    case Fulfilling(pos) => ToldGrows(s, s', t.session, pos);
    case _ =>
  }

  /** A step that moves no fetch task past its hook and caches nothing. */
  lemma UntouchedTold(s: State, s': State)
    requires AllTold(s) && Grows(s, s')
    requires forall f :: 0 <= f < |s'.fetches| ==>
               (f < |s.fetches| && s'.fetches[f] == s.fetches[f]) || s'.fetches[f].stage.Asking?
               || s'.fetches[f].stage.Answered?
    requires forall k :: k in s'.registries ==>
               s'.registries[k] == map[] || (k in s.registries && s'.registries[k] == s.registries[k])
    ensures AllTold(s')
  {
    hide Grows, Told;
    forall f | 0 <= f < |s'.fetches| ensures TaskTold(s', s'.fetches[f]) {
      if f < |s.fetches| && s'.fetches[f] == s.fetches[f] {
        TaskGrows(s, s', s.fetches[f]);
      }
    }
    forall k, swiss | k in s'.registries && swiss in s'.registries[k] ensures Told(s', k, s'.registries[k][swiss]) {
      ToldGrows(s, s', k, s.registries[k][swiss]);
    }
  }

  /** The hook of the object exported has run. */
  lemma HookTells(s: State, f: nat, s': State)
    requires Sound(s) && DataChannelsValid(s.dataChannels, |s.allChannels|) && FetchNext(s, FetchHook(f), s')
    ensures TaskTold(s', s'.fetches[f])
  {
    hide RegistriesSound, LogSound;
    assert TaskSound(s.fetches[f], s.exports, s.dataChannels);
  }

  lemma MovedTold(s: State, step: Step, s': State) returns (f: nat)
    requires AllTold(s) && Sound(s) && Grows(s, s') && FetchNext(s, step, s')
    requires DataChannelsValid(s.dataChannels, |s.allChannels|)
    ensures f < |s.fetches| && |s'.fetches| == |s.fetches|
    ensures s'.fetches == FetchTo(s.fetches, f, s'.fetches[f].stage) && TaskTold(s', s'.fetches[f])
  {
    hide Grows, Told, Sound;
    f := step.fetch;
    if step.FetchHook? {
      HookTells(s, f, s');
    } else if step.FetchHit? {
      ToldGrows(s, s', s.fetches[f].session, s.registries[s.fetches[f].session][s.fetches[f].swiss]);
    } else if step.FetchCache? {
      assert TaskTold(s, s.fetches[f]);
      ToldGrows(s, s', s.fetches[f].session, s.fetches[f].stage.cachePos);
    }
  }

  lemma FetchKeepsTasksTold(s: State, step: Step, s': State)
    requires AllTold(s) && Sound(s) && Grows(s, s') && FetchNext(s, step, s')
    requires DataChannelsValid(s.dataChannels, |s.allChannels|)
    ensures TasksTold(s')
  {
    var f := MovedTold(s, step, s');
    hide FetchNext, Grows, Sound, TaskTold;
    forall g | 0 <= g < |s'.fetches| ensures TaskTold(s', s'.fetches[g]) {
      if g != f {
        TaskGrows(s, s', s.fetches[g]);
      }
    }
  }

  lemma FetchKeepsRegistriesTold(s: State, step: Step, s': State)
    requires AllTold(s) && Grows(s, s') && FetchNext(s, step, s')
    ensures RegistriesTold(s')
  {
    hide Grows, Told;
    if step.FetchCache? {
      assert TaskTold(s, s.fetches[step.fetch]);
    } else {
      assert s'.registries == s.registries;
    }
    forall k, swiss | k in s'.registries && swiss in s'.registries[k] ensures Told(s', k, s'.registries[k][swiss]) {
      ToldGrows(s, s', k, s'.registries[k][swiss]);
    }
  }

  lemma ManagerKeepsTold(s: State, step: Step, s': State)
    requires AllTold(s) && Grows(s, s') && ManagerNext(s, step, s')
    ensures AllTold(s')
  {
    hide Grows, AllTold;
    UntouchedTold(s, s');
  }

  lemma {:induction false} AlwaysTold(run: Run, i: nat)
    requires IsRun(run) && i < |run.states|
    ensures AllTold(run.states[i])
  {
    hide NetNext, SessionNext, FetchNext, GatewayNext, ManagerNext, ChannelNext, PortalNext;
    hide Grows, Valid, Sound, TaskTold, Told;
    if i == 0 {
    } else {
      AlwaysTold(run, i - 1);
      AlwaysSound(run, i - 1);
      AlwaysValid(run, i - 1);
      var s, step, s' := run.states[i - 1], run.steps[i - 1], run.states[i];
      StepGrows(s, step, s');
      if FetchNext(s, step, s') {
        DataValid(s);
        FetchKeepsTasksTold(s, step, s');
        FetchKeepsRegistriesTold(s, step, s');
      } else if ManagerNext(s, step, s') {
        ManagerKeepsTold(s, step, s');
      } else {
        OtherLeavesFetches(s, step, s');
        UntouchedTold(s, s');
      }
    }
  }

  lemma DataValid(s: State)
    requires Valid(s)
    ensures DataChannelsValid(s.dataChannels, |s.allChannels|)
  {
  }

  /** A channel that a session's registry has a position of remembers a position of that session; so a connect call's
      lookup finds the channel exported. */
  lemma FetchedIsFound(run: Run, j: nat, n: nat, swiss: Bytes)
    requires IsRun(run) && j < |run.steps| && run.steps[j] == ConnectLook(n) && n < |run.states[j].connects|
    requires var (s, t) := (run.states[j], run.states[j].connects[n]);
             && t.stage.Looking? && t.session in s.registries && swiss in s.registries[t.session]
             && Denotes(s.exports, t.session, s.registries[t.session][swiss], ChannelRef(t.stage.channel))
    ensures var (s', t) := (run.states[j + 1], run.states[j].connects[n]);
            && n < |s'.connects| && s'.connects[n].stage.Installing? && s'.connects[n].stage.channel == t.stage.channel
            && s'.exports == run.states[j].exports
  {
    AlwaysTold(run, j);
    var s, t := run.states[j], run.states[j].connects[n];
    assert Told(s, t.session, s.registries[t.session][swiss]);
    assert PortalNext(s, ConnectLook(n), run.states[j + 1]);
  }
}
