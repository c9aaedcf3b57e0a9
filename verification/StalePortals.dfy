/** Portals of sessions that are gone: a session that is aborted before its portal opens keeps it for ever. */
module StalePortals {
  import opened Foundation
  import opened Paths
  import opened Feed
  import opened Gui
  import Node

  /** The aborts handled are those received. */
  ghost predicate AbortsLogged(s: State) {
    forall k :: k in AbortedIn(s.fed) <==> Ended(k) in s.log
  }

  lemma StepLogsAborts(s: State, step: Step, s': State)
    requires AbortsLogged(s) && Next(s, step, s')
    ensures AbortsLogged(s')
  {
    if step.SessionStarts? {
      StartedInPlus(s.fed, Started(step.session));
    } else if step.SessionAborts? {
      StartedInPlus(s.fed, Aborted(step.session, step.reason));
    }
  }

  lemma {:induction false} AlwaysLogged(run: Run, i: nat)
    requires IsRun(run) && i < |run.states|
    ensures AbortsLogged(run.states[i])
  {
    hide Next;
    if i == 0 {
    } else {
      AlwaysLogged(run, i - 1);
      StepLogsAborts(run.states[i - 1], run.steps[i - 1], run.states[i]);
    }
  }

  /** `k`'s abort was handled, and later its portal opened. */
  ghost predicate OpenedAfterAbort(log: seq<Handled>, k: Key) {
    exists b: nat, a: nat :: b < a < |log| && log[b] == Ended(k) && log[a] == Opened(k)
  }

  /** A portal that is kept belongs to an aborted session exactly if the abort was handled before the portal opened. */
  lemma StaleIff(run: Run, i: nat, k: Key)
    requires IsRun(run) && i < |run.states| && k in run.states[i].portals
    ensures k in AbortedIn(run.states[i].fed) <==> OpenedAfterAbort(run.states[i].log, k)
  {
    hide Next;
    AlwaysLogged(run, i);
    AlwaysMapsExact(run, i);
    var s := run.states[i];
    OpenedIndex(s.log, k);
    ClosedIndex(s.log, k);
    if k in AbortedIn(s.fed) {
      var a: nat :| a < |s.log| && s.log[a] == Opened(k);
      var b: nat :| b < |s.log| && s.log[b] == Ended(k);
      assert b < a;
    }
  }

  ghost predicate Stale(s: State, k: Key) {
    k in s.portals && k in s.displayed && k in AbortedIn(s.fed)
  }

  lemma StaleStep(s: State, step: Step, s': State, k: Key)
    requires Next(s, step, s') && Stale(s, k)
    ensures Stale(s', k)
  {
    if step.SessionStarts? {
      StartedInPlus(s.fed, Started(step.session));
    } else if step.SessionAborts? {
      StartedInPlus(s.fed, Aborted(step.session, step.reason));
      AbortedOnce(s.fed, step.session, step.reason);
    }
  }

  lemma AbortedOnce(fed: seq<Node.ChatResult>, k: Key, reason: string)
    requires Admissible(fed + [Aborted(k, reason)])
    ensures k !in AbortedIn(fed)
  {
    assert (fed + [Aborted(k, reason)])[..|fed|] == fed;
  }

  /** Such a portal, and its display entry, are kept for ever. */
  lemma {:induction false} StaleForEver(run: Run, i: nat, j: nat, k: Key)
    requires IsRun(run) && i <= j < |run.states| && Stale(run.states[i], k)
    ensures Stale(run.states[j], k)
    decreases j - i
  {
    hide Next, Stale;
    if i == j {
    } else {
      StaleForEver(run, i, j - 1, k);
      StaleStep(run.states[j - 1], run.steps[j - 1], run.states[j], k);
    }
  }

  /** A session starts and is aborted. */
  lemma AbortedSession(k: Key) returns (started: State, ended: State)
    ensures Next(START, SessionStarts(k), started) && Next(started, SessionAborts(k, ""), ended)
    ensures k in AbortedIn(ended.fed) && k in ended.openTasks
  {
    hide Next;
    started := AfterStart(START, k);
    ended := AfterAbort(started, k);
    StartAbortAdmissible(k);
    assert START.fed + [Started(k)] == [Started(k)] && started.fed + [Aborted(k, "")] == [Started(k), Aborted(k, "")];
    StartAbortSteps(START, k);
    StartAbortSteps(started, k);
    StartedInPlus([Started(k)], Aborted(k, ""));
  }

  /** And it happens: a session starts, is aborted, and then its portal opens. */
  lemma StaleRun(portal: RemotePortal) returns (run: Run)
    ensures IsRun(run) && Stale(Last(run.states), portal.session)
  {
    hide Next;
    var k := portal.session;
    var s1, s2 := AbortedSession(k);
    var s3 := AfterOpen(s2, portal);
    OpenAnswerSteps(s2, Answer(portal, None));
    run := Run([START, s1, s2, s3], [SessionStarts(k), SessionAborts(k, ""), OpenSucceeds(portal)]);
  }
}
