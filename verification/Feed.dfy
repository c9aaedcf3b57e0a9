/** The chat events that a node gives to its user interface. */
module Feed {
  import opened Foundation
  import opened Node
  import opened Lifecycle

  function Started(k: Key): ChatResult {
    Event(SessionStartedEvent(k))
  }

  function Aborted(k: Key, reason: string): ChatResult {
    Event(SessionAbortedEvent(k, reason))
  }

  /** The sessions that a sequence of returned events started or aborted. */
  function StartedIn(events: seq<ChatResult>): set<Key> {
    set i | 0 <= i < |events| && events[i].Event? && events[i].event.SessionStartedEvent? :: events[i].event.session
  }

  function AbortedIn(events: seq<ChatResult>): set<Key> {
    set i | 0 <= i < |events| && events[i].Event? && events[i].event.SessionAbortedEvent? :: events[i].event.session
  }

  /** Each session starts at most once and aborts at most once, after it started. */
  ghost predicate Admissible(events: seq<ChatResult>) {
    events == [] ||
    (var (before, last) := (events[..|events| - 1], events[|events| - 1]);
     && Admissible(before) && last.Event?
     && match last.event
        case SessionStartedEvent(k) => k !in StartedIn(before) && k !in AbortedIn(before)
        case SessionAbortedEvent(k, _) => k in StartedIn(before) && k !in AbortedIn(before))
  }

  lemma StartedInPlus(events: seq<ChatResult>, result: ChatResult)
    ensures StartedIn(events + [result]) == StartedIn(events) +
              (if result.Event? && result.event.SessionStartedEvent? then {result.event.session} else {})
    ensures AbortedIn(events + [result]) == AbortedIn(events) +
              (if result.Event? && result.event.SessionAbortedEvent? then {result.event.session} else {})
  {
    var more := events + [result];
    assert forall i :: 0 <= i < |events| ==> more[i] == events[i];
    assert more[|events|] == result;
  }

  lemma {:induction false} ReturnsAdmissible(sent: seq<NetworkEvent>, n: nat)
    requires Ordered(sent) && n <= |sent| && forall i :: 0 <= i < |sent| ==> !sent[i].TaskFinished?
    ensures Admissible(Returns(sent[..n]))
    ensures forall k :: k in StartedIn(Returns(sent[..n])) <==> StartedBefore(sent, n, k)
    ensures forall k :: k in AbortedIn(Returns(sent[..n])) <==> AbortedBefore(sent, n, k)
  {
    if n == 0 {
    } else {
      ReturnsAdmissible(sent, n - 1);
      var event := sent[n - 1];
      var before := Returns(sent[..n - 1]);
      assert sent[..n][..n - 1] == sent[..n - 1];
      assert InOrder(sent, n - 1, event);
      forall k ensures StartedBefore(sent, n, k) <==> StartedBefore(sent, n - 1, k) || event == SessionStarted(k)
               ensures AbortedBefore(sent, n, k) <==>
                         AbortedBefore(sent, n - 1, k) || (event.SessionAborted? && event.session == k)
      {
        BeforeNext(sent, n - 1, k);
      }
      if ReturnOf(event) == [] {
        assert Returns(sent[..n]) == before;
      } else {
        var result := ReturnOf(event)[0];
        assert Returns(sent[..n]) == before + [result];
        assert (before + [result])[..|before|] == before;
        StartedInPlus(before, result);
      }
    }
  }

  /** What `recv_event` returns over any run of a node without subtasks is admissible. */
  lemma NodeFeedsAdmissible(run: Node.Run, i: nat)
    requires Node.IsRun(run) && i < |run.states|
    requires forall j :: 0 <= j < |run.states[i].sent| ==> !run.states[i].sent[j].TaskFinished?
    ensures Admissible(run.states[i].returned)
  {
    hide Node.Next;
    CancelSafe(run, i);
    AlwaysOrdered(run, i);
    ReturnsAdmissible(run.states[i].sent, run.states[i].received);
  }
}
