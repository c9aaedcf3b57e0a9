/** The manager loop of the user interface as one object: its two maps and its task set, updated in place. */
module GuiLoops {
  import opened Foundation
  import opened Feed
  import opened Gui
  import opened Paths
  import Node

  /** What every reachable state of the loop satisfies. */
  ghost predicate LoopValid(s: State) {
    Conserved(s) && PortalsOnce(s) && MapsExact(s)
  }

  /** The loop is given an event that its sources can give it: a chat event that `recv_event` may return next,
      or the result of a task that it has. */
  ghost predicate Ready(s: State, event: Step) {
    match event
    case SessionStarts(k) => Admissible(s.fed + [Started(k)])
    case SessionAborts(k, reason) => Admissible(s.fed + [Aborted(k, reason)])
    case OpenSucceeds(portal) => portal.session in s.openTasks
    case OpenFails(k) => k in s.openTasks
    case ListAnswers(answer) => answer.portal in s.listTasks
    case ListLost(portal) => portal in s.listTasks
    case UserInput => true
  }

  class ManagerLoop {
    var portals: map<Key, RemotePortal>
    var displayed: map<Key, Option<Answer>>
    var openTasks: multiset<Key>
    var listTasks: multiset<RemotePortal>
    ghost var fed: seq<Node.ChatResult>
    ghost var log: seq<Handled>
    ghost var failed: multiset<Key>
    ghost var lost: multiset<RemotePortal>
    ghost var answered: multiset<RemotePortal>
    ghost var openedSessions: multiset<Key>
    ghost var everOpened: multiset<RemotePortal>

    ghost function View(): State
      reads this
    {
      State(portals, displayed, openTasks, listTasks, fed, log, failed, lost, answered, openedSessions, everOpened)
    }

    constructor ()
      ensures Init(View()) && LoopValid(View())
    {
      portals, displayed, openTasks, listTasks := map[], map[], multiset{}, multiset{};
      fed, log, failed, lost, answered := [], [], multiset{}, multiset{}, multiset{};
      openedSessions, everOpened := multiset{}, multiset{};
    }

    /** `SessionStarted`: a task that opens the portal is spawned. */
    method Start(k: Key)
      requires Ready(View(), SessionStarts(k))
      modifies this`openTasks, this`fed, this`log
      ensures Next(old(View()), SessionStarts(k), View()) && openTasks == old(openTasks) + multiset{k}
    {
      openTasks := openTasks + multiset{k};
      fed, log := fed + [Started(k)], log + [Other];
    }

    /** `SessionAborted`: the display entry goes only if there was a portal to remove. */
    method Abort(k: Key, reason: string)
      requires Ready(View(), SessionAborts(k, reason))
      modifies this`portals, this`displayed, this`fed, this`log
      ensures Next(old(View()), SessionAborts(k, reason), View())
      ensures portals == old(portals) - {k}
      ensures displayed == if k in old(portals) then old(displayed) - {k} else old(displayed)
    {
      if k in portals {
        displayed := displayed - {k};
      }
      portals := portals - {k};
      fed, log := fed + [Aborted(k, reason)], log + [Ended(k)];
    }

    /** Both maps gain an entry for the portal. */
    method InsertPortal(portal: RemotePortal)
      modifies this`portals, this`displayed, this`log
      ensures View() == old(View()).(portals := old(portals)[portal.session := portal],
                                     displayed := old(displayed)[portal.session := None],
                                     log := old(log) + [Opened(portal.session)])
    {
      portals, displayed := portals[portal.session := portal], displayed[portal.session := None];
      log := log + [Opened(portal.session)];
    }

    /** The open task is done. */
    method EndOpen(k: Key)
      modifies this`openTasks, this`openedSessions
      ensures View() == old(View()).(openTasks := old(openTasks) - multiset{k},
                                     openedSessions := old(openedSessions) + multiset{k})
    {
      var opens := openTasks - multiset{k};
      ghost var sessions := openedSessions + multiset{k};
      openTasks, openedSessions := opens, sessions;
    }

    /** A task that lists the portal's channels is spawned. */
    method SpawnListing(portal: RemotePortal)
      modifies this`listTasks, this`everOpened
      ensures View() == old(View()).(listTasks := old(listTasks) + multiset{portal},
                                     everOpened := old(everOpened) + multiset{portal})
    {
      var lists := listTasks + multiset{portal};
      ghost var portals := everOpened + multiset{portal};
      listTasks, everOpened := lists, portals;
    }

    /** `OpenedPortal` */
    method Open(portal: RemotePortal)
      requires Ready(View(), OpenSucceeds(portal))
      modifies this`portals, this`displayed, this`openTasks, this`listTasks, this`log, this`openedSessions,
               this`everOpened
      ensures Next(old(View()), OpenSucceeds(portal), View())
      ensures portals == old(portals)[portal.session := portal] && displayed == old(displayed)[portal.session := None]
      ensures openTasks == old(openTasks) - multiset{portal.session} && listTasks == old(listTasks) + multiset{portal}
    {
      hide Next;
      InsertPortal(portal);
      EndOpen(portal.session);
      SpawnListing(portal);
      OpenAnswerSteps(old(View()), Answer(portal, None));
    }

    /** `displayed.entry(..).or_insert(..)`, which is then given the answer. */
    method Display(answer: Answer)
      modifies this`displayed
      ensures displayed == old(displayed)[answer.portal.session := Some(answer)]
    {
      if answer.portal.session !in displayed {
        displayed := displayed[answer.portal.session := None];
      }
      displayed := displayed[answer.portal.session := Some(answer)];
    }

    /** The answer's list task is done. */
    method EndListing(answer: Answer)
      modifies this`listTasks, this`log, this`answered
      ensures View() == old(View()).(listTasks := old(listTasks) - multiset{answer.portal},
                                     log := old(log) + [Listed(answer.portal.session)],
                                     answered := old(answered) + multiset{answer.portal})
    {
      var rest := listTasks - multiset{answer.portal};
      ghost var (handled, answers) := (log + [Listed(answer.portal.session)], answered + multiset{answer.portal});
      listTasks, log, answered := rest, handled, answers;
    }

    /** `ListedChannels`: the answer is put in the display entry, which is made anew if it is gone. */
    method Listing(answer: Answer)
      requires Ready(View(), ListAnswers(answer))
      modifies this`displayed, this`listTasks, this`log, this`answered
      ensures Next(old(View()), ListAnswers(answer), View())
      ensures displayed == old(displayed)[answer.portal.session := Some(answer)]
      ensures listTasks == old(listTasks) - multiset{answer.portal}
    {
      hide Next;
      Display(answer);
      EndListing(answer);
      OpenAnswerSteps(old(View()), answer);
    }

    /** An open task that ended without a portal. */
    method ForgetOpen(k: Key)
      requires Ready(View(), OpenFails(k))
      modifies this`openTasks, this`log, this`failed
      ensures Next(old(View()), OpenFails(k), View()) && openTasks == old(openTasks) - multiset{k}
    {
      openTasks, log, failed := openTasks - multiset{k}, log + [Other], failed + multiset{k};
    }

    /** A list task that ended without an answer. */
    method ForgetListing(portal: RemotePortal)
      requires Ready(View(), ListLost(portal))
      modifies this`listTasks, this`log, this`lost
      ensures Next(old(View()), ListLost(portal), View()) && listTasks == old(listTasks) - multiset{portal}
    {
      listTasks, log, lost := listTasks - multiset{portal}, log + [Other], lost + multiset{portal};
    }

    /** `OpenPortal`: a connection is asked for; its session will be announced like any other. */
    method AskConnection()
      modifies this`log
      ensures Next(old(View()), UserInput, View())
    {
      log := log + [Other];
    }

    /** One turn of the loop keeps the tasks conserved and both maps exact, whatever `select!` picks. */
    method Turn(event: Step)
      requires LoopValid(View()) && Ready(View(), event)
      modifies this
      ensures Next(old(View()), event, View()) && LoopValid(View())
    {
      hide Next, Ready, LoopValid;
      match event {
        case SessionStarts(k) => Start(k);
        case SessionAborts(k, reason) => Abort(k, reason);
        case OpenSucceeds(portal) => Open(portal);
        case ListAnswers(answer) => Listing(answer);
        case OpenFails(k) => ForgetOpen(k);
        case ListLost(portal) => ForgetListing(portal);
        case UserInput => AskConnection();
      }
      TurnKeeps(old(View()), event, View());
    }

    /** The loop, on any events that can occur one after the other: it ends where they lead, with the tasks conserved
        and the maps exact; so a session has a display entry without a portal exactly when its list was answered
        after its abort. */
    method Run(events: seq<Step>, ghost end: State)
      requires LoopValid(View()) && Leads(Next, View(), events, end)
      modifies this
      ensures View() == end && LoopValid(View())
      ensures portals.Keys <= displayed.Keys
      ensures forall k :: k in displayed && k !in portals <==> AnsweredAfterAbort(log, k)
    {
      hide Next, Ready, LoopValid;
      for i := 0 to |events|
        invariant LoopValid(View()) && Leads(Next, View(), events[i..], end)
      {
        ghost var before := View();
        ghost var next := LeadsFirst(Next, before, events[i..], end);
        OccursReady(before, events[i], next);
        Turn(events[i]);
        SameNext(before, events[i], next, View());
        assert events[i..][1..] == events[i + 1..];
      }
      ValidMaps(View());
    }
  }

  lemma OccursReady(s: State, event: Step, s': State)
    requires Next(s, event, s')
    ensures Ready(s, event)
  {
  }

  lemma SameNext(s: State, event: Step, s': State, s'': State)
    requires Next(s, event, s') && Next(s, event, s'')
    ensures s' == s''
  {
  }

  lemma ValidMaps(s: State)
    requires LoopValid(s)
    ensures s.portals.Keys <= s.displayed.Keys
    ensures forall k :: k in s.displayed && k !in s.portals <==> AnsweredAfterAbort(s.log, k)
  {
    ExactMapsAgree(s);
  }

  /** Wherever a method leaves a loop that a run has led to, what every state of every run satisfies holds. */
  lemma StretchOfRun(run: Run, steps: seq<Step>, b: State) returns (longer: Run)
    requires IsRun(run) && Leads(Next, Last(run.states), steps, b)
    ensures IsRun(longer) && run.states <= longer.states && longer.steps == run.steps + steps
    ensures Last(longer.states) == b && LoopValid(b)
  {
    hide Next;
    var states := Continues(Next, run.states, run.steps, steps, b);
    longer := Run(states, run.steps + steps);
    AlwaysConserved(longer, |longer.steps|);
    AlwaysMapsExact(longer, |longer.steps|);
  }

  lemma TurnKeeps(s: State, event: Step, s': State)
    requires LoopValid(s) && Next(s, event, s')
    ensures LoopValid(s')
  {
    hide Next, Conserved, PortalsOnce, MapsExact;
    StepConserves(s, event, s');
    StepKeepsMaps(s, event, s');
  }
}
