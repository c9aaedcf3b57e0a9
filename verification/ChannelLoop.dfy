/** A channel and its `manage_channel` loop as one object, updated in place: `send_msg` with its two loops,
    `connect_peer`, and the taking of events. Every method takes steps of the broadcast model alone. */
module ChannelLoops {
  import opened Foundation
  import opened Paths
  import opened Broadcast

  /** The send tasks, of the message at `index`, for the outboxes of some sessions. */
  ghost function Tasks(outboxes: map<Key, nat>, keys: set<Key>, index: nat): set<Send> {
    set k | k in keys && k in outboxes :: Send(outboxes[k], index)
  }

  /** Each session has its own outbox. */
  ghost predicate Distinct(outboxes: map<Key, nat>) {
    forall k, l :: k in outboxes && l in outboxes && outboxes[k] == outboxes[l] ==> k == l
  }

  /** The tasks are of the last message, for outboxes that exist. */
  ghost predicate Current(tasks: set<Send>, outboxes: nat, sent: nat) {
    forall task :: task in tasks ==> task.outbox < outboxes && task.index + 1 == sent
  }

  /** The last message went once through the outbox of each task and through no other. */
  ghost predicate DeliveredTo(before: seq<Outbox>, sent: seq<Bytes>, tasks: set<Send>, after: seq<Outbox>)
    requires sent != []
  {
    && |after| == |before|
    && forall o: nat :: o < |before| ==>
         after[o] == if Send(o, |sent| - 1) in tasks then before[o].(wire := before[o].wire + [Last(sent)])
                     else before[o]
  }

  /** What the `select!` of `manage_channel` gives: a command, an event, or a closed event queue. */
  datatype Pick = Say(message: Bytes) | Receive | Closed

  /** The messages of the commands among the picks. */
  function MessagesIn(picks: seq<Pick>): seq<Bytes> {
    if picks == [] then []
    else MessagesIn(Front(picks)) + if Last(picks).Say? then [Last(picks).message] else []
  }

  /** The events that the loop has not taken. */
  function Unread(s: State): seq<ChannelEvent> {
    if s.taken <= |s.events| then s.events[s.taken..] else []
  }

  /** How many of `waiting` events the picks take. */
  function TakenIn(picks: seq<Pick>, waiting: nat): (n: nat)
    ensures n <= waiting
  {
    if picks == [] then 0
    else
      var n := TakenIn(Front(picks), waiting);
      if Last(picks).Receive? && n < waiting then n + 1 else n
  }

  /** What the picks add to the message list when none of their broadcasts fails. */
  function ShownIn(picks: seq<Pick>, unread: seq<ChannelEvent>): seq<Shown> {
    if picks == [] then []
    else
      var (before, n) := (ShownIn(Front(picks), unread), TakenIn(Front(picks), |unread|));
      match Last(picks)
      case Say(message) => before + [Own(message)]
      case Receive => if n < |unread| && unread[n].RecvMessage? then before + [Received(unread[n].message)] else before
      case Closed => before
  }

  class ChannelLoop {
    var turn: Turn
    var outboxes: map<Key, nat>
    var all: seq<Outbox>
    var sent: seq<Bytes>
    ghost var seen: map<nat, nat>
    var pending: multiset<Send>
    var failed: bool
    var events: seq<ChannelEvent>
    var taken: nat
    var shown: seq<Shown>

    ghost function View(): State
      reads this
    {
      State(turn, outboxes, all, sent, seen, pending, failed, events, taken, shown)
    }

    constructor ()
      ensures Init(View())
    {
      turn, outboxes, all, sent, seen, pending := Waiting, map[], [], [], map[], multiset{};
      failed, events, taken, shown := false, [], 0, [];
    }

    /** `Channel::connect_peer` */
    method ConnectPeer(session: Key)
      modifies this`outboxes, this`all, this`events
      ensures Next(old(View()), Connect(session), View())
      ensures all == old(all) + [Outbox(session, |sent|, [])] && outboxes == old(outboxes)[session := |old(all)|]
      ensures events == old(events) + [PeerConnected(session)]
    {
      outboxes, all := outboxes[session := |all|], all + [Outbox(session, |sent|, [])];
      events := events + [PeerConnected(session)];
    }

    /** `Channel::deliver_msg`: a peer sends into the channel. */
    method DeliverMsg(message: Bytes)
      modifies this`events
      ensures Next(old(View()), RemoteEvent(RecvMessage(message)), View())
      ensures events == old(events) + [RecvMessage(message)]
    {
      events := events + [RecvMessage(message)];
    }

    /** `Channel::introduce` */
    method IntroducePeer()
      modifies this`events
      ensures Next(old(View()), RemoteEvent(Introduce), View()) && events == old(events) + [Introduce]
    {
      events := events + [Introduce];
    }

    /** A turn of the loop on a channel event. */
    method TakeNext()
      requires turn == Waiting && taken < |events|
      modifies this`taken, this`shown
      ensures Next(old(View()), TakeEvent, View()) && taken == old(taken) + 1
      ensures match events[old(taken)]
              case RecvMessage(m) => shown == old(shown) + [Received(m)]
              case _ => shown == old(shown)
    {
      match events[taken] {
        case RecvMessage(m) => shown := shown + [Received(m)];
        case PeerConnected(_) => shown := shown + [];
        case Introduce => shown := shown + [];
      }
      taken := taken + 1;
    }

    /** `send_tasks.spawn(..)`: the task keeps its own copy of the message. */
    method Spawn(k: Key)
      requires turn.Iterating? && k in outboxes && k !in turn.visited && sent != []
      modifies this`turn, this`seen, this`pending
      ensures Next(old(View()), Visit(k), View())
    {
      ghost var o := outboxes[k];
      seen := if o in seen then seen else seen[o := |sent| - 1];
      turn, pending := turn.(visited := turn.visited + {k}), pending + multiset{Send(outboxes[k], |sent| - 1)};
    }

    /** One turn of the first loop of `send_msg`. */
    method SpawnNext(k: Key, ghost rest: set<Key>, ghost start: State, ghost steps: seq<Step>)
      requires SpawnedFor(View(), rest) && k in rest && Leads(Next, start, steps, View())
      modifies this`turn, this`seen, this`pending
      ensures SpawnedFor(View(), rest - {k}) && Leads(Next, start, steps + [Visit(k)], View())
    {
      hide Next, SpawnedFor;
      ghost var before := View();
      SpawnsOne(before, rest, k);
      Spawn(k);
      SpawnedOne(before, rest, k, View());
      LeadsPlus(Next, start, steps, before, Visit(k), View());
    }

    /** The first loop of `send_msg` has visited every session. */
    method EndIteration(ghost start: State, ghost steps: seq<Step>)
      requires SpawnedFor(View(), {}) && Leads(Next, start, steps, View())
      modifies this`turn
      ensures Leads(Next, start, steps + [IterationEnd], View())
      ensures turn == Joining && sent != [] && pending == multiset(Tasks(outboxes, outboxes.Keys, |sent| - 1))
    {
      hide Next, SpawnedFor, Tasks;
      ghost var before := View();
      SpawnedAll(before);
      turn := Joining;
      IterationEnds(before, View());
      LeadsPlus(Next, start, steps, before, IterationEnd, View());
    }

    /** The first loop of `send_msg`: a send task for the outbox of every session. */
    method SpawnAll() returns (ghost steps: seq<Step>)
      requires turn == Iterating(outboxes.Keys, {}) && pending == multiset{} && Distinct(outboxes) && sent != []
      modifies this`turn, this`seen, this`pending
      ensures Leads(Next, old(View()), steps, View())
      ensures turn == Joining && pending == multiset(Tasks(outboxes, outboxes.Keys, |sent| - 1))
    {
      hide Next, SpawnedFor, Tasks, Distinct;
      ghost var start := View();
      SpawnsNone(start);
      steps := [];
      var rest := outboxes.Keys;
      while rest != {}
        invariant SpawnedFor(View(), rest) && Leads(Next, start, steps, View())
        decreases |rest|
      {
        var k :| k in rest;
        SpawnNext(k, rest, start, steps);
        steps, rest := steps + [Visit(k)], rest - {k};
      }
      EndIteration(start, steps);
      steps := steps + [IterationEnd];
    }

    /** `send_tasks.join_next().await`, which may find that the send failed. */
    method JoinNext(task: Send) returns (ok: bool)
      requires turn == Joining && task in pending && task.outbox < |all| && task.index < |sent|
      modifies this`all, this`pending, this`failed
      ensures Next(old(View()), if ok then Deliver(task) else SendFail(task), View())
      ensures pending == old(pending) - multiset{task}
      ensures if ok
              then failed == old(failed)
                   && all == old(all)[task.outbox :=
                               old(all)[task.outbox].(wire := old(all)[task.outbox].wire + [sent[task.index]])]
              else failed && all == old(all)
    {
      pending, ok := pending - multiset{task}, *;
      if ok {
        var o := task.outbox;
        all := all[o := all[o].(wire := all[o].wire + [sent[task.index]])];
      } else {
        failed := true;
      }
    }

    /** One turn of the second loop of `send_msg`; a failed send ends it. */
    method JoinTurn(task: Send, ghost start: State, ghost tasks: set<Send>, ghost rest: set<Send>,
                    ghost steps: seq<Step>)
      returns (ok: bool, ghost more: seq<Step>)
      requires JoinedFor(View(), start, tasks, rest) && task in rest && Leads(Next, start, steps, View())
      modifies this`turn, this`all, this`pending, this`failed
      ensures Leads(Next, start, steps + more, View()) && |more| <= 2
      ensures if ok then JoinedFor(View(), start, tasks, rest - {task}) else turn == Stopped
    {
      hide Next, JoinedFor;
      ghost var before := View();
      JoinsOne(before, start, tasks, rest, task);
      ok := JoinNext(task);
      ghost var step := if ok then Deliver(task) else SendFail(task);
      ghost var joined := View();
      LeadsPlus(Next, start, steps, before, step, joined);
      more := [step];
      if ok {
        JoinedOne(before, start, tasks, rest, task, joined);
      } else {
        turn := Stopped;
        JoinFails(joined, View());
        LeadsPlus(Next, start, steps + [step], joined, JoinError, View());
        more := [step, JoinError];
        assert steps + [step] + [JoinError] == steps + more;
      }
    }

    /** The second loop of `send_msg`: the tasks are joined in any order, up to the first that failed. */
    method JoinAll(ghost tasks: set<Send>) returns (ok: bool, ghost steps: seq<Step>)
      requires turn == Joining && !failed && sent != []
      requires pending == multiset(tasks) && Current(tasks, |all|, |sent|)
      modifies this`turn, this`all, this`pending, this`failed, this`shown
      ensures Leads(Next, old(View()), steps, View())
      ensures if ok
              then turn == Waiting && shown == old(shown) + [Own(Last(sent))] && DeliveredTo(old(all), sent, tasks, all)
              else turn == Stopped && shown == old(shown)
    {
      hide Next, JoinedFor;
      ghost var start := View();
      JoinsNone(start, tasks);
      ghost var rest := tasks;
      steps := [];
      PendingRest(View(), start, tasks, rest);
      while pending != multiset{}
        invariant JoinedFor(View(), start, tasks, rest) && Leads(Next, start, steps, View())
        invariant pending == multiset(rest) && shown == start.shown
        decreases |rest|
      {
        var task :| task in pending;
        ghost var more;
        ok, more := JoinTurn(task, start, tasks, rest, steps);
        steps := steps + more;
        if !ok {
          return;
        }
        rest := rest - {task};
        PendingRest(View(), start, tasks, rest);
      }
      NoneLeft(rest);
      JoinedAll(View(), start, tasks);
      ghost var before := View();
      turn, shown := Waiting, shown + [Own(Last(sent))];
      JoinEnds(before, View());
      LeadsPlus(Next, start, steps, before, JoinEnd, View());
      return true, steps + [JoinEnd];
    }

    /** The command is taken, and its message is on its way to every session. */
    method BeginBroadcast(message: Bytes) returns (ghost steps: seq<Step>)
      requires Inv(View()) && turn == Waiting
      modifies this`turn, this`sent, this`seen, this`pending
      ensures Leads(Next, old(View()), steps, View()) && sent == old(sent) + [message] && turn == Joining && !failed
      ensures var tasks := Tasks(outboxes, outboxes.Keys, |sent| - 1);
              pending == multiset(tasks) && Current(tasks, |all|, |sent|)
    {
      hide Next, Inv, Tasks, Current, Distinct;
      ghost var start := View();
      InvDistinct(start);
      turn, sent := Iterating(outboxes.Keys, {}), sent + [message];
      ghost var commanded := View();
      CommandTaken(start, message, commanded);
      LeadsOne(Next, start, Command(message), commanded);
      steps := SpawnAll();
      LeadsConcat(Next, start, [Command(message)], commanded, steps, View());
      steps := [Command(message)] + steps;
    }

    /** A turn of the loop on a command. It ends either with the message delivered exactly once through the
        outbox of every session, and through no other, or with the loop stopped by a send error. */
    method Broadcast(message: Bytes) returns (ok: bool, ghost steps: seq<Step>)
      requires Inv(View()) && turn == Waiting
      modifies this`turn, this`all, this`sent, this`seen, this`pending, this`failed, this`shown
      ensures Leads(Next, old(View()), steps, View()) && Inv(View())
      ensures sent == old(sent) + [message]
      ensures if ok
              then turn == Waiting && shown == old(shown) + [Own(message)]
                   && DeliveredTo(old(all), sent, Tasks(outboxes, outboxes.Keys, |sent| - 1), all)
              else turn == Stopped && shown == old(shown)
    {
      hide Next, Inv, Tasks, Current, Distinct, DeliveredTo;
      ghost var start := View();
      steps := BeginBroadcast(message);
      ghost var spawned := View();
      ghost var joining;
      ok, joining := JoinAll(Tasks(outboxes, outboxes.Keys, |sent| - 1));
      LeadsConcat(Next, start, steps, spawned, joining, View());
      steps := steps + joining;
      StretchKeeps(start, steps, View());
    }

    /** The loop of `manage_channel`. Unless a send fails, the outbox of every session has then carried, after what it
        carried before, exactly the messages of the commands taken, in order, and they and the received messages are
        shown in the order in which they were taken; a send error stops the loop. */
    method ManageChannel(picks: seq<Pick>) returns (taken: nat, ghost steps: seq<Step>)
      requires Inv(View()) && turn == Waiting
      modifies this`turn, this`all, this`sent, this`seen, this`pending, this`failed, this`shown, this`taken
      ensures Leads(Next, old(View()), steps, View()) && Inv(View())
      ensures taken <= |picks| && sent == old(sent) + MessagesIn(picks[..taken])
      ensures this.taken == old(this.taken) + TakenIn(picks[..taken], |Unread(old(View()))|)
      ensures if turn == Waiting
              then (taken < |picks| ==> picks[taken] == Closed)
                   && Carried(outboxes, old(all), MessagesIn(picks[..taken]), all)
                   && shown == old(shown) + ShownIn(picks[..taken], Unread(old(View())))
              else turn == Stopped && taken > 0 && picks[taken - 1].Say?
                   && shown == old(shown) + ShownIn(picks[..taken - 1], Unread(old(View())))
    {
      hide Next, Inv, FollowedTo;
      ghost var start := View();
      FollowedNone(start);
      steps, taken := [], 0;
      while taken < |picks| && picks[taken] != Closed
        invariant taken <= |picks| && turn == Waiting && Inv(View())
        invariant Leads(Next, start, steps, View()) && FollowedTo(start, picks[..taken], View())
      {
        ghost var before := View();
        taken := taken + 1;
        var ok, more := Follow(picks[taken - 1]);
        LeadsConcat(Next, start, steps, before, more, View());
        steps := steps + more;
        assert picks[..taken] == picks[..taken - 1] + [picks[taken - 1]];
        if ok {
          FollowedOne(start, picks[..taken - 1], picks[taken - 1], before, View());
        } else {
          FollowedFails(start, picks[..taken - 1], picks[taken - 1], before, View());
          return;
        }
      }
      FollowedMeans(start, picks[..taken], View());
    }

    /** One turn of the loop. */
    method Follow(pick: Pick) returns (ok: bool, ghost steps: seq<Step>)
      requires Inv(View()) && turn == Waiting && pick != Closed
      modifies this`turn, this`all, this`sent, this`seen, this`pending, this`failed, this`shown, this`taken
      ensures Leads(Next, old(View()), steps, View()) && Inv(View())
      ensures if ok then turn == Waiting && FollowsOne(old(View()), pick, View())
              else turn == Stopped && pick.Say? && sent == old(sent) + [pick.message] && shown == old(shown)
                   && taken == old(taken)
    {
      hide Next, Inv, DeliveredTo;
      ghost var before := View();
      ok, steps := true, [];
      match pick {
        case Say(message) =>
          ok, steps := Broadcast(message);
        case Receive =>
          if taken < |events| {
            TakeNext();
            LeadsOne(Next, before, TakeEvent, View());
            steps := [TakeEvent];
            StepKeeps(before, TakeEvent, View());
          }
      }
    }
  }

  /** One turn of the loop that does not fail. */
  ghost predicate FollowsOne(s: State, pick: Pick, s': State) {
    && s'.outboxes == s.outboxes && s'.events == s.events
    && match pick
       case Say(message) =>
         && s'.sent == s.sent + [message] && s'.shown == s.shown + [Own(message)] && s'.taken == s.taken
         && DeliveredTo(s.all, s'.sent, Tasks(s.outboxes, s.outboxes.Keys, |s'.sent| - 1), s'.all)
       case Receive =>
         && s'.sent == s.sent && s'.all == s.all
         && if s.taken < |s.events|
            then s'.taken == s.taken + 1
                 && s'.shown == s.shown + (match s.events[s.taken]
                                           case RecvMessage(m) => [Received(m)]
                                           case _ => [])
            else s'.taken == s.taken && s'.shown == s.shown
       case Closed => false
  }

  /** All turns so far. */
  ghost predicate FollowedTo(start: State, picks: seq<Pick>, s: State) {
    && s.outboxes == start.outboxes && s.events == start.events
    && s.sent == start.sent + MessagesIn(picks) && Carried(start.outboxes, start.all, MessagesIn(picks), s.all)
    && s.taken == start.taken + TakenIn(picks, |Unread(start)|)
    && s.shown == start.shown + ShownIn(picks, Unread(start))
  }

  lemma FollowedNone(s: State)
    requires Inv(s)
    ensures FollowedTo(s, [], s)
  {
    CarriedNone(s);
  }

  lemma FollowedMeans(start: State, picks: seq<Pick>, s: State)
    requires FollowedTo(start, picks, s)
    ensures s.sent == start.sent + MessagesIn(picks) && Carried(s.outboxes, start.all, MessagesIn(picks), s.all)
    ensures s.taken == start.taken + TakenIn(picks, |Unread(start)|)
    ensures s.shown == start.shown + ShownIn(picks, Unread(start))
  {
  }

  lemma FollowedOne(start: State, picks: seq<Pick>, pick: Pick, s: State, s': State)
    requires FollowedTo(start, picks, s) && FollowsOne(s, pick, s')
    ensures FollowedTo(start, picks + [pick], s')
  {
    hide Carried, DeliveredTo;
    assert Front(picks + [pick]) == picks;
    if pick.Say? {
      CarriedMore(s, start.all, MessagesIn(picks), pick.message, s');
    } else {
      assert MessagesIn(picks) + [] == MessagesIn(picks);
      assert s.taken < |s.events| ==> s.events[s.taken] == Unread(start)[s.taken - start.taken];
    }
  }

  lemma FollowedFails(start: State, picks: seq<Pick>, pick: Pick, s: State, s': State)
    requires FollowedTo(start, picks, s) && pick.Say?
    requires s'.sent == s.sent + [pick.message] && s'.shown == s.shown && s'.taken == s.taken
    ensures s'.sent == start.sent + MessagesIn(picks + [pick])
    ensures s'.taken == start.taken + TakenIn(picks + [pick], |Unread(start)|)
    ensures s'.shown == start.shown + ShownIn(picks, Unread(start))
  {
    assert Front(picks + [pick]) == picks;
  }

  /** The iteration has visited all sessions but those of `rest`, and spawned a task for each. */
  ghost predicate SpawnedFor(s: State, rest: set<Key>) {
    && s.turn.Iterating? && s.turn.due == s.outboxes.Keys && s.sent != [] && Distinct(s.outboxes)
    && rest + s.turn.visited == s.turn.due && rest !! s.turn.visited
    && s.pending == multiset(Tasks(s.outboxes, s.turn.visited, |s.sent| - 1))
  }

  lemma SpawnsNone(s: State)
    requires s.turn == Iterating(s.outboxes.Keys, {}) && s.pending == multiset{} && Distinct(s.outboxes) && s.sent != []
    ensures SpawnedFor(s, s.outboxes.Keys)
  {
  }

  lemma SpawnsOne(s: State, rest: set<Key>, k: Key)
    requires SpawnedFor(s, rest) && k in rest
    ensures s.turn.Iterating? && k in s.outboxes && k !in s.turn.visited && s.sent != []
  {
  }

  lemma SpawnedOne(s: State, rest: set<Key>, k: Key, s': State)
    requires SpawnedFor(s, rest) && k in rest && Next(s, Visit(k), s')
    ensures SpawnedFor(s', rest - {k})
  {
    var (done, last) := (s.turn.visited, |s.sent| - 1);
    assert Tasks(s.outboxes, done + {k}, last) == Tasks(s.outboxes, done, last) + {Send(s.outboxes[k], last)};
  }

  lemma SpawnedAll(s: State)
    requires SpawnedFor(s, {})
    ensures s.turn.Iterating? && s.turn.due <= s.turn.visited && s.sent != []
    ensures s.pending == multiset(Tasks(s.outboxes, s.outboxes.Keys, |s.sent| - 1))
  {
    assert s.turn.visited == s.outboxes.Keys;
  }

  lemma DeliveredMore(start: seq<Outbox>, sent: seq<Bytes>, tasks: set<Send>, rest: set<Send>, task: Send,
                      before: seq<Outbox>, after: seq<Outbox>)
    requires rest <= tasks && task in rest && task.outbox < |start| && task.index + 1 == |sent|
    requires DeliveredTo(start, sent, tasks - rest, before)
    requires after == before[task.outbox := before[task.outbox].(wire := before[task.outbox].wire + [Last(sent)])]
    ensures DeliveredTo(start, sent, tasks - (rest - {task}), after)
    ensures multiset(rest) - multiset{task} == multiset(rest - {task})
  {
    assert tasks - (rest - {task}) == tasks - rest + {task};
  }

  /** All tasks but those of `rest` were joined, and delivered. */
  ghost predicate JoinedFor(s: State, start: State, tasks: set<Send>, rest: set<Send>) {
    && s.turn == Joining && !s.failed && s.sent == start.sent && s.sent != [] && s.shown == start.shown
    && rest <= tasks && Current(tasks, |s.all|, |s.sent|) && s.pending == multiset(rest)
    && DeliveredTo(start.all, s.sent, tasks - rest, s.all)
  }

  lemma JoinsNone(s: State, tasks: set<Send>)
    requires s.turn == Joining && !s.failed && s.sent != [] && s.pending == multiset(tasks)
    requires Current(tasks, |s.all|, |s.sent|)
    ensures JoinedFor(s, s, tasks, tasks)
  {
  }

  lemma JoinsOne(s: State, start: State, tasks: set<Send>, rest: set<Send>, task: Send)
    requires JoinedFor(s, start, tasks, rest) && task in rest
    ensures s.turn == Joining && task in s.pending && task.outbox < |s.all| && task.index < |s.sent| && s.sent != []
  {
  }

  lemma JoinedOne(s: State, start: State, tasks: set<Send>, rest: set<Send>, task: Send, s': State)
    requires JoinedFor(s, start, tasks, rest) && task in rest && Next(s, Deliver(task), s')
    ensures JoinedFor(s', start, tasks, rest - {task})
  {
    DeliveredMore(start.all, s.sent, tasks, rest, task, s.all, s'.all);
  }

  lemma PendingRest(s: State, start: State, tasks: set<Send>, rest: set<Send>)
    requires JoinedFor(s, start, tasks, rest)
    ensures s.pending == multiset(rest) && s.shown == start.shown
  {
  }

  lemma JoinedAll(s: State, start: State, tasks: set<Send>)
    requires JoinedFor(s, start, tasks, {})
    ensures s.turn == Joining && s.pending == multiset{} && !s.failed && s.sent == start.sent && s.sent != []
    ensures DeliveredTo(start.all, s.sent, tasks, s.all)
  {
    assert tasks - {} == tasks;
  }

  lemma NoneLeft(rest: set<Send>)
    requires multiset(rest) == multiset{}
    ensures rest == {}
  {
    assert forall task :: task in rest ==> task in multiset(rest);
  }

  lemma CommandTaken(s: State, message: Bytes, s': State)
    requires s.turn == Waiting && s' == s.(turn := Iterating(s.outboxes.Keys, {}), sent := s.sent + [message])
    ensures Next(s, Command(message), s')
  {
  }

  lemma IterationEnds(s: State, s': State)
    requires s.turn.Iterating? && s.turn.due <= s.turn.visited && s' == s.(turn := Joining)
    ensures Next(s, IterationEnd, s')
  {
  }

  lemma JoinFails(s: State, s': State)
    requires s.turn == Joining && s.failed && s' == s.(turn := Stopped)
    ensures Next(s, JoinError, s')
  {
  }

  lemma JoinEnds(s: State, s': State)
    requires s.turn == Joining && s.pending == multiset{} && !s.failed && s.sent != []
    requires s' == s.(turn := Waiting, shown := s.shown + [Own(Last(s.sent))])
    ensures Next(s, JoinEnd, s')
  {
  }

  lemma InvDistinct(s: State)
    requires Inv(s)
    ensures s.turn == Waiting ==> s.pending == multiset{} && !s.failed
    ensures Distinct(s.outboxes) && Current(Tasks(s.outboxes, s.outboxes.Keys, |s.sent|), |s.all|, |s.sent| + 1)
  {
    assert forall k :: k in s.outboxes ==> CurrentOk(s, k, s.outboxes[k]);
  }

  /** Each session's outbox carried `messages` after what it carried before. */
  ghost predicate Carried(outboxes: map<Key, nat>, before: seq<Outbox>, messages: seq<Bytes>, after: seq<Outbox>) {
    && |after| == |before|
    && forall k :: k in outboxes ==>
         outboxes[k] < |before| && after[outboxes[k]].wire == before[outboxes[k]].wire + messages
  }

  lemma CarriedNone(s: State)
    requires Inv(s)
    ensures Carried(s.outboxes, s.all, [], s.all)
  {
    assert forall k :: k in s.outboxes ==> CurrentOk(s, k, s.outboxes[k]);
  }

  lemma CarriedMore(s: State, start: seq<Outbox>, messages: seq<Bytes>, message: Bytes, s': State)
    requires Carried(s.outboxes, start, messages, s.all) && s'.outboxes == s.outboxes && s'.sent == s.sent + [message]
    requires DeliveredTo(s.all, s'.sent, Tasks(s.outboxes, s.outboxes.Keys, |s'.sent| - 1), s'.all)
    ensures Carried(s.outboxes, start, messages + [message], s'.all)
  {
    forall k | k in s.outboxes
      ensures s'.all[s.outboxes[k]].wire == start[s.outboxes[k]].wire + (messages + [message])
    {
      assert Send(s.outboxes[k], |s'.sent| - 1) in Tasks(s.outboxes, s.outboxes.Keys, |s'.sent| - 1);
      assert start[s.outboxes[k]].wire + messages + [message] == start[s.outboxes[k]].wire + (messages + [message]);
    }
  }

  /** What every state of a run keeps, every stretch of a run keeps. */
  lemma StretchKeeps(s: State, steps: seq<Step>, s': State)
    requires Leads(Next, s, steps, s') && Inv(s)
    ensures Inv(s')
  {
    hide Next, Inv;
    forall a, step, b | Inv(a) && Next(a, step, b) ensures Inv(b) {
      StepKeeps(a, step, b);
    }
    LeadsKeeps(Next, Inv, s, steps, s');
  }

  /** Wherever a method leaves a loop that a run has led to, what every state of every run satisfies holds. */
  lemma StretchOfRun(run: Run, steps: seq<Step>, b: State) returns (longer: Run)
    requires IsRun(run) && Leads(Next, Last(run.states), steps, b)
    ensures IsRun(longer) && run.states <= longer.states && longer.steps == run.steps + steps
    ensures Last(longer.states) == b && Inv(b) && ShownOk(b)
  {
    hide Next;
    var states := Continues(Next, run.states, run.steps, steps, b);
    longer := Run(states, run.steps + steps);
    Always(longer, |longer.steps|);
    AlwaysShown(longer, |longer.steps|);
  }
}
