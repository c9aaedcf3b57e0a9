/** A channel's owner broadcasting to its peers: `manage_channel` takes one command at a time, and
    `Channel::send_msg` spawns a send task per outbox and joins them all, while peers connect at any time.
    A remote object's calls arrive in the order they are made. */
module Broadcast {
  import opened Foundation

  /** An outbox: the messages sent through it so far, and how many broadcasts had begun when it was made.
      `Channel.outboxes` maps each session to its newest outbox. */
  datatype Outbox = Outbox(session: Key, born: nat, wire: seq<Bytes>)

  /** What the loop is doing: waiting in `select!`; iterating over the outboxes, of which those of `due` were
      there at the start; joining the send tasks; stopped by a send error. */
  datatype Turn = Waiting | Iterating(due: set<Key>, visited: set<Key>) | Joining | Stopped

  datatype ChannelEvent = RecvMessage(message: Bytes) | PeerConnected(session: Key) | Introduce

  datatype Shown = Own(message: Bytes) | Received(message: Bytes)

  /** A send task: its outbox, and the place in `sent` of the message it was spawned with. */
  datatype Send = Send(outbox: nat, index: nat)

  /** `sent` are the messages of the commands taken so far; `seen` records the first broadcast that found an
      outbox; `pending` are the unfinished send tasks; `failed` says that a finished one failed. */
  datatype State = State(
    turn: Turn,
    outboxes: map<Key, nat>,
    all: seq<Outbox>,
    sent: seq<Bytes>,
    seen: map<nat, nat>,
    pending: multiset<Send>,
    failed: bool,
    events: seq<ChannelEvent>,
    taken: nat,
    shown: seq<Shown>)

  datatype Step =
    | Command(message: Bytes)
    | Visit(session: Key)
    | IterationEnd
    | Deliver(task: Send)
    | SendFail(task: Send)
    | JoinEnd
    | JoinError
    | Connect(session: Key)
    | RemoteEvent(event: ChannelEvent)
    | TakeEvent

  ghost predicate Init(s: State) {
    s == State(Waiting, map[], [], [], map[], multiset{}, false, [], 0, [])
  }

  function Show(event: ChannelEvent): seq<Shown> {
    match event
    case RecvMessage(m) => [Received(m)]
    case _ => []
  }

  ghost predicate Next(s: State, step: Step, s': State) {
    match step
    case Command(m) =>
      && s.turn == Waiting
      && s' == s.(turn := Iterating(s.outboxes.Keys, {}), sent := s.sent + [m])
    case Visit(k) =>
      && s.turn.Iterating? && k in s.outboxes && k !in s.turn.visited && s.sent != []
      && var (o, last) := (s.outboxes[k], |s.sent| - 1);
      && s' == s.(turn := s.turn.(visited := s.turn.visited + {k}), pending := s.pending + multiset{Send(o, last)},
                  seen := if o in s.seen then s.seen else s.seen[o := last])
    case IterationEnd =>
      s.turn.Iterating? && s.turn.due <= s.turn.visited && s' == s.(turn := Joining)
    case Deliver(task) =>
      && task in s.pending && task.outbox < |s.all| && task.index < |s.sent| && var o := task.outbox;
      && s' == s.(pending := s.pending - multiset{task},
                  all := s.all[o := s.all[o].(wire := s.all[o].wire + [s.sent[task.index]])])
    case SendFail(task) =>
      task in s.pending && s' == s.(pending := s.pending - multiset{task}, failed := true)
    case JoinEnd =>
      && s.turn == Joining && s.pending == multiset{} && !s.failed && s.sent != []
      && s' == s.(turn := Waiting, shown := s.shown + [Own(s.sent[|s.sent| - 1])])
    case JoinError =>
      s.turn == Joining && s.failed && s' == s.(turn := Stopped)
    case Connect(k) =>
      s' == s.(all := s.all + [Outbox(k, |s.sent|, [])], outboxes := s.outboxes[k := |s.all|],
               events := s.events + [PeerConnected(k)])
    case RemoteEvent(event) => s' == s.(events := s.events + [event])
    case TakeEvent =>
      && s.turn == Waiting && s.taken < |s.events|
      && s' == s.(taken := s.taken + 1, shown := s.shown + Show(s.events[s.taken]))
  }

  datatype Run = Run(states: seq<State>, steps: seq<Step>)

  ghost predicate IsRun(run: Run) {
    && |run.states| == |run.steps| + 1
    && Init(run.states[0])
    && forall i :: 0 <= i < |run.steps| ==> Next(run.states[i], run.steps[i], run.states[i + 1])
  }

  // ----- the invariant

  /** The unfinished send tasks of outbox `o`, when `n` messages were sent and all tasks are of the last. */
  function Due(pending: multiset<Send>, o: nat, n: nat): nat {
    if n == 0 then 0 else pending[Send(o, n - 1)]
  }

  /** What every outbox ever made keeps: it carries a run of the sent messages, which begins with the
      broadcast that first found it; and that is the first one begun after it was made, or the one that was
      being iterated then. */
  ghost predicate OutboxOk(box: Outbox, o: nat, sent: seq<Bytes>, seen: map<nat, nat>, pending: multiset<Send>) {
    && box.born <= |sent|
    && if o in seen then
         && box.born - 1 <= seen[o] <= box.born
         && Due(pending, o, |sent|) <= 1 && seen[o] < |sent| && seen[o] + |box.wire| + Due(pending, o, |sent|) <= |sent|
         && (Due(pending, o, |sent|) == 1 ==> seen[o] + |box.wire| + 1 == |sent|)
         && Carries(box.wire, sent, seen[o])
       else Due(pending, o, |sent|) == 0 && box.wire == []
  }

  ghost predicate Carries(wire: seq<Bytes>, sent: seq<Bytes>, first: nat) {
    first + |wire| <= |sent| && forall i :: 0 <= i < |wire| ==> wire[i] == sent[first + i]
  }

  /** The outbox was given every message up to the last, or none was sent since it was made. */
  ghost predicate UpToDate(box: Outbox, o: nat, sent: seq<Bytes>, seen: map<nat, nat>, pending: multiset<Send>) {
    if o in seen then seen[o] + |box.wire| + Due(pending, o, |sent|) == |sent| else box.born == |sent|
  }

  /** The current broadcast has yet to visit the outbox; it was there at the start, or is too new to matter. */
  ghost predicate Behind(box: Outbox, o: nat, sent: seq<Bytes>, seen: map<nat, nat>, pending: multiset<Send>,
                         due: bool) {
    if o in seen then due && Due(pending, o, |sent|) == 0 && seen[o] + |box.wire| + 1 == |sent|
    else box.born == |sent| || (due && box.born + 1 == |sent|)
  }

  ghost predicate CurrentOk(s: State, k: Key, o: nat) {
    && o < |s.all| && s.all[o].session == k
    && match s.turn
       case Stopped => true
       case Iterating(due, visited) =>
         if k !in visited then Behind(s.all[o], o, s.sent, s.seen, s.pending, k in due)
         else (s.failed && o in s.seen) || UpToDate(s.all[o], o, s.sent, s.seen, s.pending)
       case _ => (s.failed && o in s.seen) || UpToDate(s.all[o], o, s.sent, s.seen, s.pending)
  }

  ghost predicate BoxesOk(s: State) {
    forall o :: 0 <= o < |s.all| ==> OutboxOk(s.all[o], o, s.sent, s.seen, s.pending)
  }

  ghost predicate CurrentsOk(s: State) {
    forall k :: k in s.outboxes ==> CurrentOk(s, k, s.outboxes[k])
  }

  ghost predicate Inv(s: State) {
    && BoxesOk(s) && CurrentsOk(s)
    && (forall o :: o in s.seen ==> o < |s.all|)
    && (forall task :: task in s.pending ==> task.outbox < |s.all| && task.index + 1 == |s.sent|)
    && (s.turn == Waiting ==> s.pending == multiset{} && !s.failed)
    && (s.turn != Waiting ==> s.sent != [])
    && (s.turn.Iterating? ==> s.turn.due <= s.outboxes.Keys)
  }

  lemma CommandKeeps(s: State, m: Bytes, s': State)
    requires Inv(s) && Next(s, Command(m), s')
    ensures Inv(s')
  {
  }

  lemma VisitEffect(s: State, k: Key, s': State)
    requires Next(s, Visit(k), s')
    ensures s.turn.Iterating? && k in s.outboxes && k !in s.turn.visited && s.sent != []
    ensures s' == s.(turn := s.turn.(visited := s.turn.visited + {k}), pending := s'.pending, seen := s'.seen)
    ensures var n := s.outboxes[k];
            && s'.seen == (if n in s.seen then s.seen else s.seen[n := |s.sent| - 1])
            && forall o: nat :: Due(s'.pending, o, |s.sent|) == Due(s.pending, o, |s.sent|) + if o == n then 1 else 0
  {
  }

  lemma VisitKeepsBoxes(s: State, k: Key, s': State)
    requires Inv(s) && Next(s, Visit(k), s')
    ensures BoxesOk(s') && s.outboxes[k] < |s.all|
  {
    hide Next, Due;
    VisitEffect(s, k, s');
  }

  lemma VisitKeepsCurrents(s: State, k: Key, s': State)
    requires Inv(s) && Next(s, Visit(k), s')
    ensures CurrentsOk(s')
  {
    hide Next, Due;
    VisitEffect(s, k, s');
  }

  lemma VisitKeeps(s: State, k: Key, s': State)
    requires Inv(s) && Next(s, Visit(k), s')
    ensures Inv(s')
  {
    hide BoxesOk, CurrentsOk;
    VisitKeepsBoxes(s, k, s');
    VisitKeepsCurrents(s, k, s');
  }

  /** A delivery moves one message from a pending task to the wire of its outbox, which keeps their sum. */
  lemma DeliverEffect(s: State, task: Send, s': State)
    requires Inv(s) && Next(s, Deliver(task), s')
    ensures s' == s.(all := s'.all, pending := s'.pending) && |s'.all| == |s.all|
    ensures forall o :: 0 <= o < |s.all| ==>
              && s'.all[o] == s.all[o].(wire := s'.all[o].wire)
              && |s'.all[o].wire| == |s.all[o].wire| + (if o == task.outbox then 1 else 0)
              && Due(s.pending, o, |s.sent|) == Due(s'.pending, o, |s.sent|) + if o == task.outbox then 1 else 0
  {
  }

  lemma DeliverKeepsBoxes(s: State, task: Send, s': State)
    requires Inv(s) && Next(s, Deliver(task), s')
    ensures BoxesOk(s')
  {
    hide CurrentsOk;
    DeliverEffect(s, task, s');
  }

  lemma DeliverKeepsCurrents(s: State, task: Send, s': State)
    requires Inv(s) && Next(s, Deliver(task), s')
    ensures CurrentsOk(s')
  {
    hide Next, Due;
    DeliverEffect(s, task, s');
  }

  lemma DeliverKeeps(s: State, task: Send, s': State)
    requires Inv(s) && Next(s, Deliver(task), s')
    ensures Inv(s')
  {
    hide BoxesOk, CurrentsOk;
    DeliverKeepsBoxes(s, task, s');
    DeliverKeepsCurrents(s, task, s');
  }

  lemma FailKeeps(s: State, task: Send, s': State)
    requires Inv(s) && Next(s, SendFail(task), s')
    ensures Inv(s')
  {
  }

  lemma ConnectKeeps(s: State, k: Key, s': State)
    requires Inv(s) && Next(s, Connect(k), s')
    ensures Inv(s')
  {
  }

  lemma OtherKeeps(s: State, step: Step, s': State)
    requires Inv(s) && Next(s, step, s')
    requires !step.Command? && !step.Visit? && !step.Deliver? && !step.SendFail? && !step.Connect?
    ensures Inv(s')
  {
    assert BoxesOk(s') by {
      hide CurrentsOk;
    }
    hide BoxesOk;
  }

  lemma StepKeeps(s: State, step: Step, s': State)
    requires Inv(s) && Next(s, step, s')
    ensures Inv(s')
  {
    match step
    case Command(m) => CommandKeeps(s, m, s');
    case Visit(k) => VisitKeeps(s, k, s');
    case Deliver(task) => DeliverKeeps(s, task, s');
    case SendFail(task) => FailKeeps(s, task, s');
    case Connect(k) => ConnectKeeps(s, k, s');
    case _ => OtherKeeps(s, step, s');
  }

  lemma {:induction false} Always(run: Run, i: nat)
    requires IsRun(run) && i < |run.states|
    ensures Inv(run.states[i])
  {
    hide Next;
    if i == 0 {
    } else {
      Always(run, i - 1);
      StepKeeps(run.states[i - 1], run.steps[i - 1], run.states[i]);
    }
  }

  // ----- what peers receive

  /** Through every outbox ever made, current, replaced or stopped, the messages delivered are a contiguous
      run of the owner's messages, in order, each once; it begins with the first broadcast begun after the
      outbox was made, or with the one under way then. */
  lemma DeliversRun(run: Run, i: nat, o: nat) returns (first: nat)
    requires IsRun(run) && i < |run.states| && o < |run.states[i].all|
    ensures var (sent, box) := (run.states[i].sent, run.states[i].all[o]);
            && first + |box.wire| <= |sent| && box.wire == sent[first..first + |box.wire|]
            && box.born - 1 <= first <= box.born
  {
    hide Next;
    Always(run, i);
    var s := run.states[i];
    assert OutboxOk(s.all[o], o, s.sent, s.seen, s.pending);
    first := if o in s.seen then s.seen[o] else s.all[o].born;
  }

  /** Whenever the loop is back at its next command, the outbox a session has now has carried every message
      from its first broadcast to the last. */
  lemma DeliversAll(run: Run, i: nat, k: Key) returns (first: nat)
    requires IsRun(run) && i < |run.states|
    requires run.states[i].turn == Waiting && k in run.states[i].outboxes
    ensures var (sent, o) := (run.states[i].sent, run.states[i].outboxes[k]);
            && o < |run.states[i].all| && var box := run.states[i].all[o];
            && box.session == k && first <= |sent| && box.wire == sent[first..]
            && box.born - 1 <= first <= box.born
  {
    hide Next;
    Always(run, i);
    var s := run.states[i];
    var o := s.outboxes[k];
    assert CurrentOk(s, k, o) && OutboxOk(s.all[o], o, s.sent, s.seen, s.pending);
    first := if o in s.seen then s.seen[o] else s.all[o].born;
  }

  ghost predicate Replaced(s: State, o: nat) {
    && o < |s.all| && (forall task :: task in s.pending ==> task.outbox != o)
    && forall k :: k in s.outboxes ==> s.outboxes[k] != o
  }

  lemma ReplacedStep(s: State, step: Step, s': State, o: nat)
    requires Next(s, step, s') && Replaced(s, o)
    ensures Replaced(s', o) && s'.all[o] == s.all[o]
  {
  }

  /** Once an outbox is replaced and its last send has ended, nothing more goes through it. */
  lemma {:induction false} ReplacedIsFinal(run: Run, i: nat, j: nat, o: nat)
    requires IsRun(run) && i <= j < |run.states| && Replaced(run.states[i], o)
    ensures Replaced(run.states[j], o) && run.states[j].all[o] == run.states[i].all[o]
    decreases j - i
  {
    hide Next;
    if i == j {
    } else {
      ReplacedIsFinal(run, i, j - 1, o);
      ReplacedStep(run.states[j - 1], run.steps[j - 1], run.states[j], o);
    }
  }

  // ----- what the owner is shown

  lemma ShownStep(s: State, step: Step, s': State)
    requires Next(s, step, s')
    ensures s.shown <= s'.shown
  {
  }

  lemma ShownStays(s: State, step: Step, s': State)
    requires Next(s, step, s') && s.turn != Waiting && s'.turn != Waiting
    ensures s'.shown == s.shown
  {
  }

  /** While a broadcast is under way nothing is shown. */
  lemma {:induction false} NothingShownMeanwhile(run: Run, i: nat, j: nat)
    requires IsRun(run) && i <= j < |run.states| && forall h :: i <= h <= j ==> run.states[h].turn != Waiting
    ensures run.states[j].shown == run.states[i].shown
    decreases j - i
  {
    hide Next;
    if i == j {
    } else {
      NothingShownMeanwhile(run, i, j - 1);
      ShownStays(run.states[j - 1], run.steps[j - 1], run.states[j]);
    }
  }

  lemma FailedStep(s: State, step: Step, s': State)
    requires Next(s, step, s')
    ensures s'.failed || s'.turn == Stopped ==> s.failed || s.turn == Stopped || step.SendFail?
  {
  }

  /** The loop stops only after a send that failed. */
  lemma {:induction false} StopsOnlyOnFailure(run: Run, i: nat)
    requires IsRun(run) && i < |run.states| && (run.states[i].failed || run.states[i].turn == Stopped)
    ensures exists j :: 0 <= j < i && run.steps[j].SendFail?
  {
    hide Next;
    assert i > 0;
    FailedStep(run.states[i - 1], run.steps[i - 1], run.states[i]);
    if !run.steps[i - 1].SendFail? {
      StopsOnlyOnFailure(run, i - 1);
    }
  }

  /** The message list only grows at its end. */
  lemma {:induction false} ShownGrows(run: Run, i: nat, j: nat)
    requires IsRun(run) && i <= j < |run.states|
    ensures run.states[i].shown <= run.states[j].shown
    decreases j - i
  {
    hide Next;
    if i == j {
    } else {
      ShownGrows(run, i, j - 1);
      ShownStep(run.states[j - 1], run.steps[j - 1], run.states[j]);
    }
  }

  function OwnShown(shown: seq<Shown>): seq<Bytes> {
    if shown == [] then []
    else
      var (rest, last) := (OwnShown(shown[..|shown| - 1]), shown[|shown| - 1]);
      if last.Own? then rest + [last.message] else rest
  }

  function OthersShown(shown: seq<Shown>): seq<Bytes> {
    if shown == [] then []
    else
      var (rest, last) := (OthersShown(shown[..|shown| - 1]), shown[|shown| - 1]);
      if last.Received? then rest + [last.message] else rest
  }

  function MessagesOf(events: seq<ChannelEvent>): seq<Bytes> {
    if events == [] then []
    else
      var (rest, last) := (MessagesOf(events[..|events| - 1]), events[|events| - 1]);
      if last.RecvMessage? then rest + [last.message] else rest
  }

  /** The messages broadcast to the end. */
  function Completed(s: State): seq<Bytes> {
    if s.turn == Waiting || s.sent == [] then s.sent else s.sent[..|s.sent| - 1]
  }

  ghost predicate ShownOk(s: State) {
    && s.taken <= |s.events|
    && OwnShown(s.shown) == Completed(s)
    && OthersShown(s.shown) == MessagesOf(s.events[..s.taken])
  }

  lemma JoinKeepsShown(s: State, s': State)
    requires ShownOk(s) && Next(s, JoinEnd, s')
    ensures ShownOk(s')
  {
    assert s'.shown[..|s'.shown| - 1] == s.shown;
    assert s.sent == s.sent[..|s.sent| - 1] + [s.sent[|s.sent| - 1]];
  }

  lemma TakeKeepsShown(s: State, s': State)
    requires ShownOk(s) && Next(s, TakeEvent, s')
    ensures ShownOk(s')
  {
    assert s'.events[..s'.taken][..s.taken] == s.events[..s.taken];
    if s.events[s.taken].RecvMessage? {
      assert s'.shown[..|s'.shown| - 1] == s.shown;
    } else {
      assert s'.shown == s.shown;
    }
  }

  lemma CommandKeepsShown(s: State, m: Bytes, s': State)
    requires ShownOk(s) && Next(s, Command(m), s')
    ensures ShownOk(s')
  {
    assert s'.sent[..|s'.sent| - 1] == s.sent;
  }

  lemma OtherKeepsShown(s: State, step: Step, s': State)
    requires ShownOk(s) && Next(s, step, s') && (s.turn != Waiting ==> s.sent != [])
    requires step != JoinEnd && step != TakeEvent && !step.Command?
    ensures ShownOk(s')
  {
    assert s'.shown == s.shown && s'.taken == s.taken && s'.sent == s.sent && Completed(s') == Completed(s);
    assert s'.events[..s.taken] == s.events[..s.taken];
  }

  /** The message list is at every state an interleaving of the owner's completed broadcasts and the received
      messages taken so far, each in order and each once. */
  lemma {:induction false} AlwaysShown(run: Run, i: nat)
    requires IsRun(run) && i < |run.states|
    ensures ShownOk(run.states[i])
  {
    hide Next;
    if i == 0 {
    } else {
      AlwaysShown(run, i - 1);
      Always(run, i - 1);
      if run.steps[i - 1] == JoinEnd {
        JoinKeepsShown(run.states[i - 1], run.states[i]);
      } else if run.steps[i - 1] == TakeEvent {
        TakeKeepsShown(run.states[i - 1], run.states[i]);
      } else if run.steps[i - 1].Command? {
        CommandKeepsShown(run.states[i - 1], run.steps[i - 1].message, run.states[i]);
      } else {
        OtherKeepsShown(run.states[i - 1], run.steps[i - 1], run.states[i]);
      }
    }
  }
}
