/** The user interface's manager loop: `select!` over the events of `recv_event`, the results of its tasks
    and user input, with the two maps and the task set it keeps. */
module Gui {
  import opened Foundation
  import opened Feed
  import Node

  /** A remote portal, opened over a session. */
  datatype RemotePortal = RemotePortal(session: Key, pos: nat)

  /** The answer to `list_channels`, and the portal that gave it. */
  datatype Answer = Answer(portal: RemotePortal, listing: Option<seq<Node.Listing>>)

  datatype Handled =
    | Opened(session: Key)
    | Ended(session: Key)
    | Listed(session: Key)
    | Other

  /** `portals`, `displayed` (the display map `opened_portals`), and the loop's task set, split by kind. `fed` and
      `log` are the chat events received and what was handled, in order; `failed` and `lost` are the open
      and list tasks that ended without a result. */
  datatype State = State(
    portals: map<Key, RemotePortal>,
    displayed: map<Key, Option<Answer>>,
    openTasks: multiset<Key>,
    listTasks: multiset<RemotePortal>,
    fed: seq<Node.ChatResult>,
    log: seq<Handled>,
    failed: multiset<Key>,
    lost: multiset<RemotePortal>,
    answered: multiset<RemotePortal>,
    openedSessions: multiset<Key>,
    everOpened: multiset<RemotePortal>)

  datatype Step =
    | SessionStarts(session: Key)
    | SessionAborts(session: Key, reason: string)
    | OpenSucceeds(portal: RemotePortal)
    | OpenFails(session: Key)
    | ListAnswers(answer: Answer)
    | ListLost(portal: RemotePortal)
    | UserInput

  const START := State(map[], map[], multiset{}, multiset{}, [], [],
                       multiset{}, multiset{}, multiset{}, multiset{}, multiset{})

  ghost predicate Init(s: State) {
    s == START
  }

  /** What the loop does with each event it selects. An open task that fails or panics is only forgotten; a
      list task always answers unless it panics. User input asks for a connection. */
  ghost predicate Next(s: State, step: Step, s': State) {
    match step
    case SessionStarts(k) =>
      var fed := s.fed + [Started(k)];
      && Admissible(fed)
      && s' == s.(fed := fed, openTasks := s.openTasks + multiset{k}, log := s.log + [Other])
    case SessionAborts(k, reason) =>
      var fed := s.fed + [Aborted(k, reason)];
      && Admissible(fed)
      && s' == s.(fed := fed, log := s.log + [Ended(k)],
                  portals := s.portals - {k},
                  displayed := if k in s.portals then s.displayed - {k} else s.displayed)
    case OpenSucceeds(portal) =>
      var k := portal.session;
      && k in s.openTasks
      && s' == s.(openTasks := s.openTasks - multiset{k}, log := s.log + [Opened(k)],
                  portals := s.portals[k := portal], displayed := s.displayed[k := None],
                  listTasks := s.listTasks + multiset{portal},
                  openedSessions := s.openedSessions + multiset{k}, everOpened := s.everOpened + multiset{portal})
    case OpenFails(k) =>
      && k in s.openTasks
      && s' == s.(openTasks := s.openTasks - multiset{k}, log := s.log + [Other], failed := s.failed + multiset{k})
    case ListAnswers(answer) =>
      var portal := answer.portal;
      && portal in s.listTasks
      && s' == s.(listTasks := s.listTasks - multiset{portal}, log := s.log + [Listed(portal.session)],
                  displayed := s.displayed[portal.session := Some(answer)], answered := s.answered + multiset{portal})
    case ListLost(portal) =>
      && portal in s.listTasks
      && s' == s.(listTasks := s.listTasks - multiset{portal}, log := s.log + [Other],
                  lost := s.lost + multiset{portal})
    case UserInput => s' == s.(log := s.log + [Other])
  }

  datatype Run = Run(states: seq<State>, steps: seq<Step>)

  ghost predicate IsRun(run: Run) {
    && |run.states| == |run.steps| + 1
    && Init(run.states[0])
    && forall i :: 0 <= i < |run.steps| ==> Next(run.states[i], run.steps[i], run.states[i + 1])
  }

  // ----- tasks are conserved

  /** Every started session has exactly one open task, which is pending, failed or has opened its portal; every
      portal ever opened has exactly one list task, which is pending, lost or has answered. */
  ghost predicate Conserved(s: State) {
    && multiset(StartedIn(s.fed)) == s.openTasks + s.failed + s.openedSessions
    && s.everOpened == s.listTasks + s.lost + s.answered
    && |s.everOpened| == |s.openedSessions|
    && forall p, q :: p in s.everOpened && q in s.everOpened && p.session == q.session ==> p == q
  }

  ghost predicate PortalsOnce(s: State) {
    forall p :: p in s.everOpened ==> s.openedSessions[p.session] == 1 && s.everOpened[p] == 1
  }

  lemma FedConserves(s: State, step: Step, s': State)
    requires Conserved(s) && PortalsOnce(s) && Next(s, step, s')
    requires step.SessionStarts? || step.SessionAborts?
    ensures Conserved(s') && PortalsOnce(s')
  {
    var last := s'.fed[|s.fed|];
    StartedInPlus(s.fed, last);
    assert s'.fed[..|s.fed|] == s.fed;
    if step.SessionStarts? {
      assert multiset(StartedIn(s'.fed)) == multiset(StartedIn(s.fed)) + multiset{step.session};
    }
  }

  /** No portal is opened twice over one session. */
  lemma OpenedOnce(s: State, k: Key)
    requires Conserved(s) && k in s.openTasks
    ensures s.openedSessions[k] == 0
  {
    assert multiset(StartedIn(s.fed))[k] <= 1;
  }

  lemma MovesOne<T>(a: multiset<T>, b: multiset<T>, x: T)
    requires x in a
    ensures a + b == (a - multiset{x}) + (b + multiset{x})
  {
  }

  lemma AddsOne<T>(a: multiset<T>, b: multiset<T>, x: T)
    ensures (a + b) + multiset{x} == (a + multiset{x}) + b && |a + multiset{x}| == |a| + 1
  {
  }

  /** What opening a portal does to the task sets and the counts. */
  lemma OpenEffect(s: State, portal: RemotePortal, s': State)
    requires Next(s, OpenSucceeds(portal), s')
    ensures var k := portal.session;
            && k in s.openTasks && s'.fed == s.fed
            && s'.openTasks == s.openTasks - multiset{k} && s'.openedSessions == s.openedSessions + multiset{k}
            && s'.listTasks == s.listTasks + multiset{portal} && s'.everOpened == s.everOpened + multiset{portal}
            && s'.failed == s.failed && s'.lost == s.lost && s'.answered == s.answered
  {
  }

  lemma OpenSums(s: State, portal: RemotePortal, s': State)
    requires Conserved(s) && Next(s, OpenSucceeds(portal), s')
    ensures multiset(StartedIn(s'.fed)) == s'.openTasks + s'.failed + s'.openedSessions
    ensures s'.everOpened == s'.listTasks + s'.lost + s'.answered
    ensures |s'.everOpened| == |s'.openedSessions|
  {
    hide Next;
    var k := portal.session;
    OpenEffect(s, portal, s');
    MovesOne(s.openTasks, s.openedSessions, k);
    assert s'.openTasks + s'.failed + s'.openedSessions == s'.failed + (s'.openTasks + s'.openedSessions);
    assert s.openTasks + s.failed + s.openedSessions == s.failed + (s.openTasks + s.openedSessions);
    AddsOne(s.listTasks, s.lost + s.answered, portal);
    AddsOne(s.openedSessions, multiset{}, k);
    AddsOne(s.everOpened, multiset{}, portal);
    assert s.listTasks + (s.lost + s.answered) == s.listTasks + s.lost + s.answered;
    assert s'.listTasks + (s'.lost + s'.answered) == s'.listTasks + s'.lost + s'.answered;
  }

  lemma OpenConserves(s: State, step: Step, s': State)
    requires Conserved(s) && PortalsOnce(s) && Next(s, step, s') && step.OpenSucceeds?
    ensures Conserved(s') && PortalsOnce(s')
  {
    hide Next;
    OpenSums(s, step.portal, s');
    OpenEffect(s, step.portal, s');
    OpenedOnce(s, step.portal.session);
  }

  lemma OtherConserves(s: State, step: Step, s': State)
    requires Conserved(s) && PortalsOnce(s) && Next(s, step, s')
    requires !step.SessionStarts? && !step.SessionAborts? && !step.OpenSucceeds?
    ensures Conserved(s') && PortalsOnce(s')
  {
    assert s'.fed == s.fed && s'.openedSessions == s.openedSessions && s'.everOpened == s.everOpened;
    assert s'.openTasks + s'.failed == s.openTasks + s.failed;
  }

  lemma StepConserves(s: State, step: Step, s': State)
    requires Conserved(s) && PortalsOnce(s) && Next(s, step, s')
    ensures Conserved(s') && PortalsOnce(s')
  {
    hide Next, Conserved, PortalsOnce;
    if step.SessionStarts? || step.SessionAborts? {
      FedConserves(s, step, s');
    } else if step.OpenSucceeds? {
      OpenConserves(s, step, s');
    } else {
      OtherConserves(s, step, s');
    }
  }

  lemma {:induction false} AlwaysConserved(run: Run, i: nat)
    requires IsRun(run) && i < |run.states|
    ensures Conserved(run.states[i]) && PortalsOnce(run.states[i])
  {
    hide Next;
    if i == 0 {
    } else {
      AlwaysConserved(run, i - 1);
      StepConserves(run.states[i - 1], run.steps[i - 1], run.states[i]);
    }
  }

  /** The counts: sessions started = open tasks pending + failed + portals opened, and portals opened = list
      tasks pending + lost + answers received. */
  lemma TaskCounts(run: Run, i: nat)
    requires IsRun(run) && i < |run.states|
    ensures var s := run.states[i];
            && |StartedIn(s.fed)| == |s.openTasks| + |s.failed| + |s.everOpened|
            && |s.everOpened| == |s.listTasks| + |s.lost| + |s.answered|
  {
    hide Next;
    AlwaysConserved(run, i);
    var s := run.states[i];
    assert |multiset(StartedIn(s.fed))| == |StartedIn(s.fed)|;
  }

  // ----- the two maps

  /** `k`'s portal was opened. */
  predicate HasOpened(log: seq<Handled>, k: Key) {
    log != [] && (log[|log| - 1] == Opened(k) || HasOpened(log[..|log| - 1], k))
  }

  /** `k` was aborted after its portal was opened. */
  predicate Closed(log: seq<Handled>, k: Key) {
    log != [] && ((log[|log| - 1] == Ended(k) && HasOpened(log[..|log| - 1], k)) || Closed(log[..|log| - 1], k))
  }

  /** `k`'s list answer was handled after `k` was aborted after its portal was opened. */
  predicate LateAnswer(log: seq<Handled>, k: Key) {
    log != [] && ((log[|log| - 1] == Listed(k) && Closed(log[..|log| - 1], k)) || LateAnswer(log[..|log| - 1], k))
  }

  lemma {:induction false} LateIsClosed(log: seq<Handled>, k: Key)
    ensures LateAnswer(log, k) ==> Closed(log, k)
    ensures Closed(log, k) ==> HasOpened(log, k)
  {
    if log == [] {
    } else {
      LateIsClosed(log[..|log| - 1], k);
    }
  }

  /** What handling `e` after `log` changes for `k`. */
  ghost predicate LogPlus(log: seq<Handled>, e: Handled, log': seq<Handled>, k: Key) {
    && (HasOpened(log', k) <==> e == Opened(k) || HasOpened(log, k))
    && (Closed(log', k) <==> (e == Ended(k) && HasOpened(log, k)) || Closed(log, k))
    && (LateAnswer(log', k) <==> (e == Listed(k) && Closed(log, k)) || LateAnswer(log, k))
    && (LateAnswer(log, k) ==> Closed(log, k)) && (Closed(log, k) ==> HasOpened(log, k))
  }

  lemma LogStep(s: State, step: Step, s': State)
    requires Next(s, step, s')
    ensures |s'.log| == |s.log| + 1 && s'.log == s.log + [s'.log[|s.log|]]
    ensures forall k {:trigger HasOpened(s'.log, k)} {:trigger Closed(s'.log, k)} {:trigger LateAnswer(s'.log, k)} ::
              LogPlus(s.log, s'.log[|s.log|], s'.log, k)
  {
    forall k ensures LogPlus(s.log, s'.log[|s.log|], s'.log, k) {
      LateIsClosed(s.log, k);
      assert s'.log[..|s.log|] == s.log;
    }
  }

  /** What the maps hold, exactly, by what was handled. */
  ghost predicate MapsExact(s: State) {
    && (forall k :: k in s.portals <==> HasOpened(s.log, k) && !Closed(s.log, k))
    && (forall k :: k in s.displayed <==> k in s.portals || LateAnswer(s.log, k))
    && (forall k :: HasOpened(s.log, k) <==> k in s.openedSessions)
    && (forall k :: k in s.portals ==> s.portals[k] in s.everOpened && s.portals[k].session == k)
    && (forall k :: k in s.displayed && s.displayed[k].Some? ==>
          s.displayed[k].value.portal in s.answered && s.displayed[k].value.portal.session == k)
  }

  lemma FedKeepsMaps(s: State, step: Step, s': State)
    requires MapsExact(s) && Next(s, step, s') && (step.SessionStarts? || step.SessionAborts?)
    ensures MapsExact(s')
  {
    LogStep(s, step, s');
  }

  lemma OpenKeepsMaps(s: State, step: Step, s': State)
    requires MapsExact(s) && Conserved(s) && Next(s, step, s') && step.OpenSucceeds?
    ensures MapsExact(s')
  {
    LogStep(s, step, s');
    OpenedOnce(s, step.portal.session);
  }

  lemma ListKeepsMaps(s: State, step: Step, s': State)
    requires MapsExact(s) && Conserved(s) && PortalsOnce(s) && Next(s, step, s') && step.ListAnswers?
    ensures MapsExact(s')
  {
    LogStep(s, step, s');
    assert step.answer.portal in s.everOpened;
  }

  lemma OtherKeepsMaps(s: State, step: Step, s': State)
    requires MapsExact(s) && Next(s, step, s') && (step.OpenFails? || step.ListLost? || step.UserInput?)
    ensures MapsExact(s')
  {
    LogStep(s, step, s');
  }

  lemma StepKeepsMaps(s: State, step: Step, s': State)
    requires MapsExact(s) && Conserved(s) && PortalsOnce(s) && Next(s, step, s')
    ensures MapsExact(s')
  {
    hide Next, Conserved, PortalsOnce, MapsExact;
    if step.SessionStarts? || step.SessionAborts? {
      FedKeepsMaps(s, step, s');
    } else if step.OpenSucceeds? {
      OpenKeepsMaps(s, step, s');
    } else if step.ListAnswers? {
      ListKeepsMaps(s, step, s');
    } else {
      OtherKeepsMaps(s, step, s');
    }
  }

  lemma {:induction false} AlwaysMapsExact(run: Run, i: nat)
    requires IsRun(run) && i < |run.states|
    ensures MapsExact(run.states[i])
  {
    hide Next;
    if i == 0 {
    } else {
      AlwaysMapsExact(run, i - 1);
      AlwaysConserved(run, i - 1);
      StepKeepsMaps(run.states[i - 1], run.steps[i - 1], run.states[i]);
    }
  }

  // ----- when the maps agree

  /** Three handled events, in this order: `k`'s portal opened, `k` aborted, `k`'s list answered. */
  ghost predicate AnsweredAfterAbort(log: seq<Handled>, k: Key) {
    exists a: nat, b: nat, c: nat :: InThisOrder(log, k, a, b, c)
  }

  ghost predicate InThisOrder(log: seq<Handled>, k: Key, a: nat, b: nat, c: nat) {
    a < b < c < |log| && log[a] == Opened(k) && log[b] == Ended(k) && log[c] == Listed(k)
  }

  lemma {:induction false} OpenedIndex(log: seq<Handled>, k: Key)
    ensures HasOpened(log, k) <==> exists a: nat :: a < |log| && log[a] == Opened(k)
  {
    if log == [] {
    } else {
      OpenedIndex(log[..|log| - 1], k);
    }
  }

  lemma {:induction false} ClosedIndex(log: seq<Handled>, k: Key)
    ensures Closed(log, k) <==> exists a: nat, b: nat :: a < b < |log| && log[a] == Opened(k) && log[b] == Ended(k)
  {
    if log == [] {
    } else {
      ClosedIndex(log[..|log| - 1], k);
      OpenedIndex(log[..|log| - 1], k);
    }
  }

  lemma {:induction false} LateIndex(log: seq<Handled>, k: Key)
    ensures LateAnswer(log, k) <==> AnsweredAfterAbort(log, k)
  {
    if log == [] {
    } else {
      var before := log[..|log| - 1];
      LateIndex(before, k);
      ClosedIndex(before, k);
      if LateAnswer(before, k) {
        var a: nat, b: nat, c: nat :| InThisOrder(before, k, a, b, c);
        assert InThisOrder(log, k, a, b, c);
      } else if LateAnswer(log, k) {
        var a: nat, b: nat :| a < b < |before| && before[a] == Opened(k) && before[b] == Ended(k);
        assert InThisOrder(log, k, a, b, |log| - 1);
      }
      if AnsweredAfterAbort(log, k) {
        var a: nat, b: nat, c: nat :| InThisOrder(log, k, a, b, c);
        assert c == |log| - 1 || InThisOrder(before, k, a, b, c);
        assert before[a] == Opened(k) && before[b] == Ended(k);
      }
    }
  }

  lemma ExactMapsAgree(s: State)
    requires MapsExact(s)
    ensures s.portals.Keys <= s.displayed.Keys
    ensures forall k :: k in s.displayed && k !in s.portals <==> AnsweredAfterAbort(s.log, k)
    ensures s.portals.Keys == s.displayed.Keys <==> forall l :: !AnsweredAfterAbort(s.log, l)
  {
    forall l ensures LateAnswer(s.log, l) <==> AnsweredAfterAbort(s.log, l)
      ensures LateAnswer(s.log, l) ==> Closed(s.log, l)
    {
      LateIndex(s.log, l);
      LateIsClosed(s.log, l);
    }
    if s.portals.Keys == s.displayed.Keys {
      forall l ensures !AnsweredAfterAbort(s.log, l) {
        assert l in s.portals.Keys <==> l in s.displayed.Keys;
      }
    } else {
      var l :| l in s.displayed.Keys && l !in s.portals.Keys;
      assert AnsweredAfterAbort(s.log, l);
    }
  }

  /** Every open portal has a display entry; the keys without an open portal are exactly those whose list
      answer was handled after their session's abort; so the two key sets are equal exactly when no answer
      was. */
  lemma MapsAgree(run: Run, i: nat, k: Key)
    requires IsRun(run) && i < |run.states|
    ensures var s := run.states[i];
            && s.portals.Keys <= s.displayed.Keys
            && (k in s.displayed && k !in s.portals <==> AnsweredAfterAbort(s.log, k))
            && (s.portals.Keys == s.displayed.Keys <==> forall l :: !AnsweredAfterAbort(s.log, l))
  {
    hide Next;
    AlwaysMapsExact(run, i);
    ExactMapsAgree(run.states[i]);
  }

  // ----- what the maps hold

  /** The step opens a portal over session `k`. */
  predicate OpensOver(step: Step, k: Key) {
    step.OpenSucceeds? && step.portal.session == k
  }

  /** The step gives the answer of a portal over session `k`. */
  predicate AnswersFor(step: Step, k: Key) {
    step.ListAnswers? && step.answer.portal.session == k
  }

  predicate Ends(step: Step, k: Key) {
    step.SessionAborts? && step.session == k
  }

  lemma MapsStep(s: State, step: Step, s': State, k: Key)
    requires Next(s, step, s')
    ensures OpensOver(step, k) ==> k in s'.portals && s'.portals[k] == step.portal
    ensures !OpensOver(step, k) && k in s'.portals ==> !Ends(step, k) && k in s.portals && s'.portals[k] == s.portals[k]
    ensures !OpensOver(step, k) && !Ends(step, k) ==> (k in s.portals ==> k in s'.portals)
    ensures OpensOver(step, k) ==> k in s'.displayed && s'.displayed[k] == None
    ensures AnswersFor(step, k) ==> k in s'.displayed && s'.displayed[k] == Some(step.answer)
    ensures !OpensOver(step, k) && !AnswersFor(step, k) && k in s'.displayed ==>
              k in s.displayed && s'.displayed[k] == s.displayed[k]
  {
  }

  /** The portal kept for a session is the one that was opened over it last, and the session was not aborted since. */
  lemma {:induction false} KeptPortalIsLast(run: Run, i: nat, k: Key, portal: RemotePortal)
    requires IsRun(run) && i < |run.states|
    ensures k in run.states[i].portals && run.states[i].portals[k] == portal <==>
            exists j: nat :: j < i && run.steps[j] == OpenSucceeds(portal) && portal.session == k
                             && forall h :: j < h < i ==> !OpensOver(run.steps[h], k) && !Ends(run.steps[h], k)
  {
    hide Next;
    if i == 0 {
    } else {
      KeptPortalIsLast(run, i - 1, k, portal);
      var step := run.steps[i - 1];
      MapsStep(run.states[i - 1], step, run.states[i], k);
      if OpensOver(step, k) {
        assert step == OpenSucceeds(step.portal);
      }
    }
  }

  /** The answer shown for a session is the very answer that its portal gave last, and no portal was opened over the
      session since; an entry without an answer is of a portal that was opened since the last answer. */
  lemma {:induction false} ShownAnswerIsLast(run: Run, i: nat, k: Key) returns (j: nat)
    requires IsRun(run) && i < |run.states| && k in run.states[i].displayed
    ensures j < i && forall h :: j < h < i ==> !OpensOver(run.steps[h], k) && !AnswersFor(run.steps[h], k)
    ensures match run.states[i].displayed[k]
            case Some(answer) => run.steps[j] == ListAnswers(answer) && answer.portal.session == k
            case None => OpensOver(run.steps[j], k)
  {
    hide Next;
    assert i > 0;
    var step := run.steps[i - 1];
    MapsStep(run.states[i - 1], step, run.states[i], k);
    if OpensOver(step, k) || AnswersFor(step, k) {
      j := i - 1;
    } else {
      j := ShownAnswerIsLast(run, i - 1, k);
    }
  }

  /** Every channel list shown is the one answered last by a portal opened over that very session, which had started. */
  lemma ShownListsAreGenuine(run: Run, i: nat, k: Key) returns (j: nat)
    requires IsRun(run) && i < |run.states|
    requires k in run.states[i].displayed && run.states[i].displayed[k].Some?
    ensures var (s, portal) := (run.states[i], run.states[i].displayed[k].value.portal);
            portal in s.everOpened && portal.session == k && k in StartedIn(s.fed)
    ensures j < i && run.steps[j] == ListAnswers(run.states[i].displayed[k].value)
    ensures forall h :: j < h < i ==> !OpensOver(run.steps[h], k) && !AnswersFor(run.steps[h], k)
  {
    hide Next;
    AlwaysMapsExact(run, i);
    AlwaysConserved(run, i);
    j := ShownAnswerIsLast(run, i, k);
    var s := run.states[i];
    assert s.openedSessions[k] > 0;
    assert multiset(StartedIn(s.fed))[k] > 0;
  }

  lemma {:induction false} LogLength(run: Run, i: nat)
    requires IsRun(run) && i < |run.states|
    ensures |run.states[i].log| == i
  {
    if i == 0 {
    } else {
      LogLength(run, i - 1);
    }
  }

  lemma LogGrowsStep(s: State, step: Step, s': State)
    requires Next(s, step, s')
    ensures s.log <= s'.log
  {
  }

  lemma {:induction false} LogGrows(run: Run, i: nat, j: nat)
    requires IsRun(run) && i <= j < |run.states|
    ensures run.states[i].log <= run.states[j].log
    decreases j - i
  {
    hide Next;
    if i == j {
    } else {
      LogGrows(run, i, j - 1);
      LogGrowsStep(run.states[j - 1], run.steps[j - 1], run.states[j]);
    }
  }

  lemma EndedTasksStep(s: State, step: Step, s': State)
    requires Next(s, step, s')
    ensures s.answered <= s'.answered && s.lost <= s'.lost && s.everOpened <= s'.everOpened
  {
    if !step.OpenSucceeds? {
      assert s'.everOpened == s.everOpened;
    }
    if !step.ListAnswers? {
      assert s'.answered == s.answered;
    }
    if !step.ListLost? {
      assert s'.lost == s.lost;
    }
  }

  lemma {:induction false} EndedTasksGrow(run: Run, i: nat, j: nat)
    requires IsRun(run) && i <= j < |run.states|
    ensures run.states[i].answered <= run.states[j].answered && run.states[i].lost <= run.states[j].lost
    ensures run.states[i].everOpened <= run.states[j].everOpened
    decreases j - i
  {
    hide Next;
    if i == j {
    } else {
      EndedTasksGrow(run, i, j - 1);
      EndedTasksStep(run.states[j - 1], run.steps[j - 1], run.states[j]);
    }
  }

  lemma HandledThen(run: Run, i: nat, a: nat)
    requires IsRun(run) && a < i < |run.states| && a < |run.states[i].log|
    ensures |run.states[a].log| == a && |run.states[a + 1].log| == a + 1
    ensures run.states[a + 1].log[a] == run.states[i].log[a]
  {
    LogLength(run, a);
    LogLength(run, a + 1);
    LogGrows(run, a + 1, i);
  }

  lemma OpenedThen(run: Run, i: nat, a: nat) returns (portal: RemotePortal)
    requires IsRun(run) && a < i < |run.states| && a < |run.states[i].log| && run.states[i].log[a].Opened?
    ensures portal in run.states[a + 1].everOpened && portal.session == run.states[i].log[a].session
  {
    HandledThen(run, i, a);
    portal := run.steps[a].portal;
  }

  lemma EndedThen(run: Run, i: nat, b: nat)
    requires IsRun(run) && b < i < |run.states| && b < |run.states[i].log| && run.states[i].log[b].Ended?
    ensures run.steps[b].SessionAborts? && run.steps[b].session == run.states[i].log[b].session
  {
    HandledThen(run, i, b);
  }

  lemma AnsweredThen(run: Run, i: nat, c: nat) returns (portal: RemotePortal)
    requires IsRun(run) && c < i < |run.states| && c < |run.states[i].log| && run.states[i].log[c].Listed?
    ensures portal in run.states[c].listTasks && portal.session == run.states[i].log[c].session
  {
    HandledThen(run, i, c);
    portal := run.steps[c].answer.portal;
  }

  /** A display entry without an open portal is one whose list task was still in flight when its session was
      aborted. */
  lemma ExtraEntryWasInFlight(run: Run, i: nat, k: Key) returns (b: nat, portal: RemotePortal)
    requires IsRun(run) && i < |run.states|
    requires k in run.states[i].displayed && k !in run.states[i].portals
    ensures b < i && run.steps[b].SessionAborts? && run.steps[b].session == k
    ensures portal in run.states[b].listTasks && portal.session == k
  {
    hide Next;
    MapsAgree(run, i, k);
    var a: nat, c: nat;
    a, b, c :| InThisOrder(run.states[i].log, k, a, b, c);
    LogLength(run, i);
    var first := OpenedThen(run, i, a);
    EndedThen(run, i, b);
    portal := AnsweredThen(run, i, c);
    EndedTasksGrow(run, a + 1, b);
    EndedTasksGrow(run, b, c);
    AlwaysConserved(run, b);
    AlwaysConserved(run, c);
    assert run.states[c].everOpened[first] > 0;
    assert first == portal;
    assert run.states[c].everOpened[portal] == 1 && run.states[c].listTasks[portal] == 1;
    assert run.states[b].answered[portal] == 0 && run.states[b].lost[portal] == 0;
  }

  lemma StartAbortAdmissible(k: Key)
    ensures Admissible([Started(k)]) && Admissible([Started(k), Aborted(k, "")])
  {
    StartedInPlus([], Started(k));
    assert [Started(k)][..0] == [] && [] + [Started(k)] == [Started(k)];
    assert [Started(k), Aborted(k, "")][..1] == [Started(k)];
  }

  function AfterStart(s: State, k: Key): State {
    s.(fed := s.fed + [Started(k)], openTasks := s.openTasks + multiset{k}, log := s.log + [Other])
  }

  function AfterAbort(s: State, k: Key): State {
    s.(fed := s.fed + [Aborted(k, "")], log := s.log + [Ended(k)], portals := s.portals - {k},
       displayed := if k in s.portals then s.displayed - {k} else s.displayed)
  }

  function AfterOpen(s: State, portal: RemotePortal): State {
    var k := portal.session;
    s.(openTasks := s.openTasks - multiset{k}, log := s.log + [Opened(k)],
       portals := s.portals[k := portal], displayed := s.displayed[k := None],
       listTasks := s.listTasks + multiset{portal},
       openedSessions := s.openedSessions + multiset{k}, everOpened := s.everOpened + multiset{portal})
  }

  function AfterAnswer(s: State, answer: Answer): State {
    s.(listTasks := s.listTasks - multiset{answer.portal}, log := s.log + [Listed(answer.portal.session)],
       displayed := s.displayed[answer.portal.session := Some(answer)],
       answered := s.answered + multiset{answer.portal})
  }

  lemma StartAbortSteps(s: State, k: Key)
    ensures Admissible(s.fed + [Started(k)]) ==> Next(s, SessionStarts(k), AfterStart(s, k))
    ensures Admissible(s.fed + [Aborted(k, "")]) ==> Next(s, SessionAborts(k, ""), AfterAbort(s, k))
  {
  }

  lemma OpenAnswerSteps(s: State, answer: Answer)
    ensures answer.portal.session in s.openTasks ==> Next(s, OpenSucceeds(answer.portal), AfterOpen(s, answer.portal))
    ensures answer.portal in s.listTasks ==> Next(s, ListAnswers(answer), AfterAnswer(s, answer))
  {
  }

  /** A session starts and opens its portal. */
  lemma OpenedSession(portal: RemotePortal) returns (started: State, open: State)
    ensures Next(START, SessionStarts(portal.session), started) && Next(started, OpenSucceeds(portal), open)
    ensures open.fed == [Started(portal.session)] && open.listTasks == multiset{portal}
    ensures open.portals == map[portal.session := portal] && portal.session in open.displayed
  {
    hide Next;
    var k := portal.session;
    started := AfterStart(START, k);
    open := AfterOpen(started, portal);
    StartAbortAdmissible(k);
    assert START.fed + [Started(k)] == [Started(k)];
    StartAbortSteps(START, k);
    OpenAnswerSteps(started, Answer(portal, None));
  }

  /** It is aborted, and then its list call is answered. */
  lemma LateSession(portal: RemotePortal, open: State) returns (ended: State, listed: State)
    requires open.fed == [Started(portal.session)] && open.listTasks == multiset{portal}
    requires open.portals == map[portal.session := portal]
    ensures Next(open, SessionAborts(portal.session, ""), ended)
    ensures Next(ended, ListAnswers(Answer(portal, None)), listed)
    ensures listed.portals == map[] && portal.session in listed.displayed
  {
    hide Next;
    var k := portal.session;
    ended := AfterAbort(open, k);
    listed := AfterAnswer(ended, Answer(portal, None));
    StartAbortAdmissible(k);
    assert open.fed + [Aborted(k, "")] == [Started(k), Aborted(k, "")];
    StartAbortSteps(open, k);
    OpenAnswerSteps(ended, Answer(portal, None));
  }

  /** And it happens: a session that starts, opens its portal, is aborted and then answers its list call leaves
      an entry without a portal. */
  lemma LateAnswerLeavesEntry(portal: RemotePortal) returns (run: Run)
    ensures IsRun(run) && var s := run.states[|run.steps|];
            s.portals == map[] && portal.session in s.displayed
  {
    hide Next;
    var k := portal.session;
    var s1, s2 := OpenedSession(portal);
    var s3, s4 := LateSession(portal, s2);
    run := Run([START, s1, s2, s3, s4],
               [SessionStarts(k), OpenSucceeds(portal), SessionAborts(k, ""), ListAnswers(Answer(portal, None))]);
  }
}
