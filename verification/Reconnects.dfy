/** A peer that connects again: over all outboxes that a session has had, one after the other, broadcasts reach it
    without a gap and without a repetition, as long as no send fails. */
module Reconnects {
  import opened Foundation
  import opened Paths
  import opened Broadcast

  /** No send failed so far. */
  ghost predicate IsCalm(run: Run, i: nat) {
    IsRun(run) && i < |run.states| && forall j :: 0 <= j < i ==> !run.steps[j].SendFail?
  }

  /** The session's current broadcast is yet to come. */
  function Awaiting(s: State, k: Key): nat {
    if s.turn.Iterating? && k !in s.turn.visited then 1 else 0
  }

  /** `o` is the last outbox of its session that a broadcast found. */
  ghost predicate LatestSeen(s: State, o: nat) {
    o < |s.all| && o in s.seen && forall p :: o < p < |s.all| && p in s.seen ==> s.all[p].session != s.all[o].session
  }

  /** `o` and `p` are outboxes of one session that broadcasts found, with none between them. */
  ghost predicate Successive(s: State, o: nat, p: nat) {
    && o < p < |s.all| && o in s.seen && p in s.seen && s.all[o].session == s.all[p].session
    && forall q :: o < q < p && q in s.seen ==> s.all[q].session != s.all[o].session
  }

  /** The outbox was given all messages from its first up to the last, but for the one to come. */
  ghost predicate CaughtUp(s: State, o: nat)
    requires o < |s.all| && o in s.seen
  {
    s.seen[o] + |s.all[o].wire| + Due(s.pending, o, |s.sent|) + Awaiting(s, s.all[o].session) == |s.sent|
  }

  /** The later outbox begins where the earlier one has ended. */
  ghost predicate TakesOver(s: State, o: nat, p: nat)
    requires o < |s.all| && o in s.seen && p in s.seen
  {
    Due(s.pending, o, |s.sent|) == 0 && s.seen[p] == s.seen[o] + |s.all[o].wire|
  }

  ghost predicate Newest(s: State) {
    forall o :: 0 <= o < |s.all| ==> s.all[o].session in s.outboxes && o <= s.outboxes[s.all[o].session]
  }

  /** While the loop iterates, every session found before is to be visited or was; only visited ones have a send. */
  ghost predicate Visits(s: State) {
    s.turn.Iterating? ==>
      && (forall o :: o in s.seen && o < |s.all| ==> s.all[o].session in s.turn.due + s.turn.visited)
      && (forall task :: task in s.pending && task.outbox < |s.all| ==> s.all[task.outbox].session in s.turn.visited)
  }

  ghost predicate Seamless(s: State) {
    && (forall o: nat :: LatestSeen(s, o) ==> CaughtUp(s, o))
    && (forall o: nat, p: nat :: Successive(s, o, p) ==> TakesOver(s, o, p))
  }

  ghost predicate CalmInv(s: State) {
    !s.failed && s.turn != Stopped && Newest(s) && Visits(s) && Seamless(s)
  }

  lemma StepKeepsNewest(s: State, step: Step, s': State)
    requires Newest(s) && Next(s, step, s')
    ensures Newest(s')
  {
  }

  lemma VisitKeepsVisits(s: State, k: Key, s': State)
    requires Visits(s) && Next(s, Visit(k), s')
    requires s.outboxes[k] < |s.all| && s.all[s.outboxes[k]].session == k
    ensures Visits(s')
  {
    var o := s.outboxes[k];
    assert forall p :: p in s'.seen ==> p == o || p in s.seen;
    assert forall task :: task in s'.pending ==> task.outbox == o || task in s.pending;
  }

  lemma CommandKeepsVisits(s: State, m: Bytes, s': State)
    requires Newest(s) && s.pending == multiset{} && Next(s, Command(m), s')
    ensures Visits(s')
  {
  }

  lemma ConnectKeepsVisits(s: State, k: Key, s': State)
    requires Visits(s) && Next(s, Connect(k), s')
    requires forall o :: o in s.seen ==> o < |s.all|
    requires forall task :: task in s.pending ==> task.outbox < |s.all|
    ensures Visits(s')
  {
  }

  lemma OtherKeepsVisits(s: State, step: Step, s': State)
    requires Visits(s) && Next(s, step, s') && !step.Visit? && !step.Command? && !step.Connect?
    ensures Visits(s')
  {
    assert s'.seen == s.seen && forall task :: task in s'.pending ==> task in s.pending;
    assert forall o :: 0 <= o < |s.all| ==> s'.all[o].session == s.all[o].session;
  }

  lemma StepKeepsShape(s: State, step: Step, s': State)
    requires Inv(s) && CalmInv(s) && Next(s, step, s') && !step.SendFail?
    ensures !s'.failed && s'.turn != Stopped && Newest(s') && Visits(s')
  {
    hide Newest, Visits, Seamless;
    StepKeepsNewest(s, step, s');
    match step
    case Visit(k) =>
      assert CurrentOk(s, k, s.outboxes[k]);
      VisitKeepsVisits(s, k, s');
    case Command(m) => CommandKeepsVisits(s, m, s');
    case Connect(k) => ConnectKeepsVisits(s, k, s');
    case _ => OtherKeepsVisits(s, step, s');
  }

  /** A session that is still to be visited has no send under way. */
  lemma UnvisitedIdle(s: State, o: nat)
    requires CalmInv(s) && o < |s.all| && s.turn.Iterating? && s.all[o].session !in s.turn.visited && s.sent != []
    ensures Due(s.pending, o, |s.sent|) == 0 && o <= s.outboxes[s.all[o].session]
  {
    assert Send(o, |s.sent| - 1) in s.pending <==> s.pending[Send(o, |s.sent| - 1)] > 0;
  }

  lemma VisitedOk(s: State, k: Key)
    requires Inv(s) && k in s.outboxes
    ensures var n := s.outboxes[k];
            CurrentOk(s, k, n) && OutboxOk(s.all[n], n, s.sent, s.seen, s.pending)
    ensures forall o :: o in s.seen ==> o < |s.all|
  {
  }

  lemma VisitKeepsCaughtUp(s: State, k: Key, s': State)
    requires Inv(s) && CalmInv(s) && Next(s, Visit(k), s')
    ensures forall o: nat :: LatestSeen(s', o) ==> CaughtUp(s', o)
  {
    hide Next, Inv, Visits, Due;
    VisitEffect(s, k, s');
    VisitedOk(s, k);
    var n := s.outboxes[k];
    UnvisitedIdle(s, n);
    forall o: nat | LatestSeen(s', o) ensures CaughtUp(s', o) {
      assert o < |s.all| && (s.all[o].session == k ==> o <= n);
      if o != n {
        assert LatestSeen(s, o);
      }
    }
  }

  lemma VisitKeepsTakeover(s: State, k: Key, s': State)
    requires Inv(s) && CalmInv(s) && Next(s, Visit(k), s')
    ensures forall o: nat, p: nat :: Successive(s', o, p) ==> TakesOver(s', o, p)
  {
    hide Next, Inv, Visits, Due;
    VisitEffect(s, k, s');
    VisitedOk(s, k);
    var n := s.outboxes[k];
    forall o: nat, p: nat | Successive(s', o, p) ensures TakesOver(s', o, p) {
      assert s.all[o].session == k ==> p <= n;
      if p in s.seen {
        assert Successive(s, o, p);
      } else {
        assert p == n && LatestSeen(s, o);
        UnvisitedIdle(s, o);
      }
    }
  }

  lemma VisitKeepsSeamless(s: State, k: Key, s': State)
    requires Inv(s) && CalmInv(s) && Next(s, Visit(k), s')
    ensures Seamless(s')
  {
    hide Next, Inv, CalmInv;
    VisitKeepsCaughtUp(s, k, s');
    VisitKeepsTakeover(s, k, s');
  }

  lemma DeliverKeepsSeamless(s: State, task: Send, s': State)
    requires Inv(s) && Seamless(s) && Next(s, Deliver(task), s')
    ensures Seamless(s')
  {
    hide Next, Inv, Due;
    DeliverEffect(s, task, s');
    forall o: nat | LatestSeen(s', o) ensures CaughtUp(s', o) {
      assert LatestSeen(s, o);
    }
    forall o: nat, p: nat | Successive(s', o, p) ensures TakesOver(s', o, p) {
      assert Successive(s, o, p) && TakesOver(s, o, p);
    }
  }

  lemma OtherKeepsSeamless(s: State, step: Step, s': State)
    requires Inv(s) && CalmInv(s) && Next(s, step, s') && !step.SendFail? && !step.Visit? && !step.Deliver?
    ensures Seamless(s')
  {
    forall o: nat | LatestSeen(s', o) ensures CaughtUp(s', o) {
      assert LatestSeen(s, o) && CaughtUp(s, o);
    }
    forall o: nat, p: nat | Successive(s', o, p) ensures TakesOver(s', o, p) {
      assert Successive(s, o, p) && TakesOver(s, o, p);
    }
  }

  lemma {:induction false} AlwaysCalm(run: Run, i: nat)
    requires IsCalm(run, i)
    ensures Inv(run.states[i]) && CalmInv(run.states[i])
  {
    hide Next;
    Always(run, i);
    if i == 0 {
    } else {
      AlwaysCalm(run, i - 1);
      var s, step, s' := run.states[i - 1], run.steps[i - 1], run.states[i];
      StepKeepsShape(s, step, s');
      match step
      case Visit(k) => VisitKeepsSeamless(s, k, s');
      case Deliver(task) => DeliverKeepsSeamless(s, task, s');
      case _ => OtherKeepsSeamless(s, step, s');
    }
  }

  // ----- all outboxes of a session together

  /** What a session received through its outboxes among the first `n`, in the order they were made. */
  function Joined(all: seq<Outbox>, k: Key, n: nat): seq<Bytes>
    requires n <= |all|
  {
    if n == 0 then [] else Joined(all, k, n - 1) + if all[n - 1].session == k then all[n - 1].wire else []
  }

  /** The last outbox of `k` among the first `n` that a broadcast found, if any. */
  ghost predicate LastAmong(s: State, k: Key, n: nat, o: nat) {
    && o < n <= |s.all| && o in s.seen && s.all[o].session == k
    && forall p :: o < p < n && p in s.seen ==> s.all[p].session != k
  }

  lemma Appended(sent: seq<Bytes>, first: nat, end: nat, wire: seq<Bytes>)
    requires first <= end && Carries(wire, sent, end)
    ensures sent[first..end] + wire == sent[first..end + |wire|]
  {
  }

  /** The outboxes of `k` among the first `n` carried the messages from `first` to the end of `last`'s wire. */
  ghost predicate JoinedAs(s: State, k: Key, n: nat, first: nat, last: Option<nat>)
    requires n <= |s.all|
  {
    match last
    case None => Joined(s.all, k, n) == [] && forall p :: 0 <= p < n && p in s.seen ==> s.all[p].session != k
    case Some(o) =>
      && LastAmong(s, k, n, o) && var end := s.seen[o] + |s.all[o].wire|;
      && first <= end <= |s.sent| && Joined(s.all, k, n) == s.sent[first..end]
  }

  /** An outbox of `k` that a broadcast found goes on where the ones before it ended. */
  lemma JoinedOne(s: State, k: Key, o: nat, first: nat, last: Option<nat>)
    requires Seamless(s) && o < |s.all| && s.all[o].session == k && o in s.seen
    requires Carries(s.all[o].wire, s.sent, s.seen[o]) && JoinedAs(s, k, o, first, last)
    ensures JoinedAs(s, k, o + 1, if last.Some? then first else s.seen[o], Some(o))
  {
    hide Seamless;
    if last.Some? {
      TakenOver(s, last.value, o);
      Appended(s.sent, first, s.seen[o], s.all[o].wire);
    } else {
      Appended(s.sent, s.seen[o], s.seen[o], s.all[o].wire);
      assert s.sent[s.seen[o]..s.seen[o]] == [];
    }
  }

  lemma {:induction false} JoinedIsRun(s: State, k: Key, n: nat) returns (first: nat, last: Option<nat>)
    requires Seamless(s) && n <= |s.all|
    requires forall o :: 0 <= o < |s.all| ==> OutboxOk(s.all[o], o, s.sent, s.seen, s.pending)
    ensures JoinedAs(s, k, n, first, last)
  {
    hide Seamless, OutboxOk, Carries;
    if n == 0 {
      first, last := 0, None;
    } else {
      var o: nat := n - 1;
      first, last := JoinedIsRun(s, k, o);
      WireOf(s, o);
      if s.all[o].session == k && o in s.seen {
        JoinedOne(s, k, o, first, last);
        first, last := if last.Some? then first else s.seen[o], Some(o);
      }
    }
  }

  lemma WireOf(s: State, o: nat)
    requires o < |s.all| && OutboxOk(s.all[o], o, s.sent, s.seen, s.pending)
    ensures if o in s.seen then Carries(s.all[o].wire, s.sent, s.seen[o]) else s.all[o].wire == []
  {
  }

  lemma TakenOver(s: State, o: nat, p: nat)
    requires Seamless(s) && Successive(s, o, p)
    ensures s.seen[p] == s.seen[o] + |s.all[o].wire|
  {
  }

  /** In every run without a failed send, all that a session received through all its outboxes, in the order they
      were made, is one contiguous run of the owner's messages; when the loop is back at its next command, it
      reaches to the last message, unless none was sent since the session connected. */
  lemma ReconnectLosesNothing(run: Run, i: nat, k: Key) returns (first: nat)
    requires IsCalm(run, i)
    ensures var (s, got) := (run.states[i], Joined(run.states[i].all, k, |run.states[i].all|));
            && first + |got| <= |s.sent| && got == s.sent[first..first + |got|]
            && (s.turn == Waiting && k in s.outboxes ==> got == s.sent[first..])
  {
    hide Next;
    AlwaysCalm(run, i);
    var s := run.states[i];
    var last;
    first, last := JoinedIsRun(s, k, |s.all|);
    if last.None? {
      first := |s.sent|;
    } else {
      assert LatestSeen(s, last.value);
    }
  }

  /** When a session connects again, its new outbox begins exactly where the old one ended, and the old one has
      ended. */
  lemma NextOutboxTakesOver(run: Run, i: nat, o: nat, p: nat)
    requires IsCalm(run, i) && Successive(run.states[i], o, p)
    ensures TakesOver(run.states[i], o, p)
  {
    hide Next;
    AlwaysCalm(run, i);
  }
}
