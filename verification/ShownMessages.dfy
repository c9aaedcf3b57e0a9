/** Are the messages that the owner of a channel is shown signed by their senders? The loop does not check; so exactly
    when the messages delivered to it are. */
module ShownMessages {
  import opened Foundation
  import opened Paths
  import Broadcast
  import Messages

  /** `read` is how delivered bytes are read as a message. */
  type Reading = Bytes -> Messages.Message

  /** The message passes under the key that it names as its sender. */
  ghost predicate Genuine(fmt: Messages.KeyFormat, acts: set<Messages.Act>, read: Reading, bytes: Bytes) {
    Messages.Verifies(fmt, Messages.LedgerOf(fmt, acts), read(bytes), read(bytes).sender)
  }

  lemma {:induction false} ShownReceived(shown: seq<Broadcast.Shown>, bytes: Bytes)
    ensures Broadcast.Received(bytes) in shown <==> bytes in Broadcast.OthersShown(shown)
  {
    if shown == [] {
    } else {
      ShownReceived(shown[..|shown| - 1], bytes);
      assert shown == shown[..|shown| - 1] + [shown[|shown| - 1]];
    }
  }

  lemma {:induction false} TakenMessages(events: seq<Broadcast.ChannelEvent>, bytes: Bytes)
    ensures Broadcast.RecvMessage(bytes) in events <==> bytes in Broadcast.MessagesOf(events)
  {
    if events == [] {
    } else {
      TakenMessages(events[..|events| - 1], bytes);
      assert events == events[..|events| - 1] + [events[|events| - 1]];
    }
  }

  /** In any run, a message of a peer is shown exactly if it was delivered and its event taken. */
  lemma ShownIffTaken(run: Broadcast.Run, i: nat, bytes: Bytes)
    requires Broadcast.IsRun(run) && i < |run.states|
    ensures var s := run.states[i];
            && s.taken <= |s.events|
            && (Broadcast.Received(bytes) in s.shown <==> Broadcast.RecvMessage(bytes) in s.events[..s.taken])
  {
    hide Broadcast.Next;
    Broadcast.AlwaysShown(run, i);
    var s := run.states[i];
    ShownReceived(s.shown, bytes);
    TakenMessages(s.events[..s.taken], bytes);
  }

  /** So all that is shown of peers is signed by its senders exactly if all that was delivered and taken is. */
  lemma ShownGenuineIff(run: Broadcast.Run, i: nat, fmt: Messages.KeyFormat, acts: set<Messages.Act>, read: Reading)
    requires Broadcast.IsRun(run) && i < |run.states|
    ensures var s := run.states[i];
            && s.taken <= |s.events|
            && ((forall bytes :: Broadcast.Received(bytes) in s.shown ==> Genuine(fmt, acts, read, bytes)) <==>
                (forall bytes :: Broadcast.RecvMessage(bytes) in s.events[..s.taken] ==>
                   Genuine(fmt, acts, read, bytes)))
  {
    hide Broadcast.Next, Genuine;
    ShownIffTaken(run, i, []);
    forall bytes: Bytes
      ensures Broadcast.Received(bytes) in run.states[i].shown <==>
              Broadcast.RecvMessage(bytes) in run.states[i].events[..run.states[i].taken]
    {
      ShownIffTaken(run, i, bytes);
    }
  }

  /** And it happens: bytes whose message its sender never signed are delivered, taken and shown. */
  lemma UnsignedShown(fmt: Messages.KeyFormat, acts: set<Messages.Act>, read: Reading, bytes: Bytes)
    returns (run: Broadcast.Run)
    requires Messages.Faithful(fmt) && var m := read(bytes);
             Messages.SignMessage(m.sender, m.id, m.sender, m.text, m.signature) !in acts
    ensures Broadcast.IsRun(run) && Broadcast.Received(bytes) in Last(run.states).shown
    ensures !Genuine(fmt, acts, read, bytes)
  {
    var s0 := Broadcast.State(Broadcast.Waiting, map[], [], [], map[], multiset{}, false, [], 0, []);
    var s1 := s0.(events := [Broadcast.RecvMessage(bytes)]);
    var s2 := s1.(taken := 1, shown := [Broadcast.Received(bytes)]);
    assert Broadcast.Next(s0, Broadcast.RemoteEvent(Broadcast.RecvMessage(bytes)), s1);
    assert Broadcast.Next(s1, Broadcast.TakeEvent, s2);
    run := Broadcast.Run([s0, s1, s2], [Broadcast.RemoteEvent(Broadcast.RecvMessage(bytes)), Broadcast.TakeEvent]);
    Messages.VerifiesIffSigned(fmt, acts, read(bytes), read(bytes).sender);
  }
}
