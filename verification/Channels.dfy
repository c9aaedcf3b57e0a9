/** Portals, the shared channel map, and where channels are exported. */
module Channels {
  import opened Foundation
  import opened Node
  import opened Growth
  import opened Fetching

  // ----- one portal per peer

  /** At any two times of a run a peer key has the same portal, which carries that key, and no two portals
      carry the same key. */
  lemma OnePortalPerPeer(run: Run, i: nat, j: nat, k: Key, p: nat, q: nat)
    requires IsRun(run) && i <= j < |run.states|
    ensures var (s, s') := (run.states[i], run.states[j]);
            && (k in s.portals ==>
                  (k in s'.portals && s'.portals[k] == s.portals[k]
                   && s.portals[k] < |s'.allPortals| && s'.allPortals[s.portals[k]] == Portal(k)))
            && (p < |s.allPortals| && q < |s'.allPortals| && s.allPortals[p] == s'.allPortals[q] ==> p == q)
  {
    hide Next;
    AlwaysValid(run, i);
    AlwaysValid(run, j);
    RunGrows(run, i, j);
  }

  // ----- listing and finding

  /** No id is listed twice. */
  ghost predicate Once(listing: seq<Listing>) {
    forall i, j :: 0 <= i < j < |listing| ==> listing[i].id != listing[j].id
  }

  ghost predicate Lists(listing: seq<Listing>, id: Uuid) {
    exists n :: 0 <= n < |listing| && listing[n].id == id
  }

  /** What was listed so far are the ids visited, each once; a finished call visited all that were there before. */
  ghost predicate ListSound(l: ListCall, registered: set<Uuid>) {
    && l.before <= registered && l.visited <= registered
    && (forall id :: id in l.visited <==> Lists(l.listing, id)) && Once(l.listing)
    && (l.answer.Some? ==> l.answer.value == l.listing && l.before <= l.visited)
  }

  ghost predicate ListsSound(lists: seq<ListCall>, registered: set<Uuid>) {
    forall l :: 0 <= l < |lists| ==> ListSound(lists[l], registered)
  }

  lemma VisitSound(l: ListCall, entry: Listing, registered: set<Uuid>)
    requires ListSound(l, registered) && l.answer == None && entry.id in registered && entry.id !in l.visited
    ensures ListSound(l.(visited := l.visited + {entry.id}, listing := l.listing + [entry]), registered)
  {
    var listing := l.listing + [entry];
    assert listing[|l.listing|] == entry;
    forall id ensures Lists(listing, id) <==> Lists(l.listing, id) || id == entry.id {
      if n :| 0 <= n < |l.listing| && l.listing[n].id == id {
        assert listing[n].id == id;
      }
    }
  }

  lemma ChannelKeepsLists(s: State, step: Step, s': State)
    requires ListsSound(s.lists, s.channels.Keys) && ObjectsValid(s) && ChannelNext(s, step, s')
    ensures ListsSound(s'.lists, s'.channels.Keys)
  {
    if step.VisitEntry? {
      var channel := s.allChannels[s.channels[step.id]];
      assert channel.id == step.id;
      VisitSound(s.lists[step.list], Listing(channel.id, channel.info), s.channels.Keys);
    }
  }

  lemma {:induction false} AlwaysListsSound(run: Run, i: nat)
    requires IsRun(run) && i < |run.states|
    ensures ListsSound(run.states[i].lists, run.states[i].channels.Keys)
  {
    hide NetNext, SessionNext, FetchNext, GatewayNext, ManagerNext, ChannelNext, PortalNext;
    if i == 0 {
    } else {
      AlwaysListsSound(run, i - 1);
      AlwaysValid(run, i - 1);
      var s, step, s' := run.states[i - 1], run.steps[i - 1], run.states[i];
      StepFrame(s, step, s');
      if ChannelNext(s, step, s') {
        ChannelKeepsLists(s, step, s');
      }
    }
  }

  /** What is listed is registered, ever after. */
  lemma ListedIsRegistered(run: Run, i: nat, j: nat, l: nat, id: Uuid)
    requires IsRun(run) && i <= j < |run.states| && l < |run.states[i].lists|
    requires run.states[i].lists[l].answer.Some? && Lists(run.states[i].lists[l].answer.value, id)
    ensures id in run.states[j].channels
  {
    hide Next;
    AlwaysListsSound(run, i);
    RunGrows(run, i, j);
    assert ListSound(run.states[i].lists[l], run.states[i].channels.Keys);
  }

  /** A channel of that id and info is registered. */
  ghost predicate EntryAt(s: State, entry: Listing) {
    && entry.id in s.channels && s.channels[entry.id] < |s.allChannels|
    && s.allChannels[s.channels[entry.id]].id == entry.id && s.allChannels[s.channels[entry.id]].info == entry.info
  }

  /** It was, between the `j`th and the `i`th state. */
  ghost predicate WasEntry(run: Run, j: nat, i: nat, entry: Listing) {
    exists h: nat :: j <= h < i && h < |run.states| && EntryAt(run.states[h], entry)
  }

  lemma ListStep(s: State, step: Step, s': State, l: nat)
    requires ObjectsValid(s) && ChannelNext(s, step, s') && l < |s.lists|
    ensures l < |s'.lists| && s'.lists[l].session == s.lists[l].session && s'.lists[l].before == s.lists[l].before
    ensures s'.lists[l].listing == s.lists[l].listing
            || (|s'.lists[l].listing| == |s.lists[l].listing| + 1 && s.lists[l].listing <= s'.lists[l].listing
                && EntryAt(s, s'.lists[l].listing[|s.lists[l].listing|]))
  {
  }

  lemma {:induction false} ListHistory(run: Run, j: nat, i: nat, k: Key, at: nat, l: nat)
    requires IsRun(run) && j < i < |run.states| && run.steps[j] == CallList(k, at) && l == |run.states[j].lists|
    ensures l < |run.states[i].lists| && run.states[i].lists[l].session == k
    ensures run.states[i].lists[l].before == run.states[j].channels.Keys
    ensures forall n :: 0 <= n < |run.states[i].lists[l].listing| ==>
              WasEntry(run, j, i, run.states[i].lists[l].listing[n])
    decreases i
  {
    hide NetNext, SessionNext, FetchNext, GatewayNext, ManagerNext, ChannelNext, PortalNext;
    var s, step, s' := run.states[i - 1], run.steps[i - 1], run.states[i];
    if i == j + 1 {
      CallMakes(s, k, at, s');
    } else {
      ListHistory(run, j, i - 1, k, at, l);
      AlwaysValid(run, i - 1);
      StepFrame(s, step, s');
      if ChannelNext(s, step, s') {
        ListStep(s, step, s', l);
      }
      forall n | 0 <= n < |s'.lists[l].listing| ensures WasEntry(run, j, i, s'.lists[l].listing[n]) {
        if n < |s.lists[l].listing| {
          assert WasEntry(run, j, i - 1, s.lists[l].listing[n]);
        } else {
          assert EntryAt(run.states[i - 1], s'.lists[l].listing[n]);
        }
      }
    }
  }

  lemma CallMakes(s: State, k: Key, at: nat, s': State)
    requires Next(s, CallList(k, at), s')
    ensures k in s.exports && at < |s.exports[k]| && s.exports[k][at].PortalRef?
    ensures s'.lists == s.lists + [ListCall(k, s.channels.Keys, {}, [], None)]
  {
    assert ChannelNext(s, CallList(k, at), s');
  }

  /** The call at step `j` is answered with every id registered before it, with no id that is not registered, and with
      none twice; when nothing was registered meanwhile, with exactly the registered ids; and with the info of a
      channel that was registered under the id since. */
  lemma ListedChannelsRegistered(run: Run, j: nat, i: nat, k: Key, at: nat, l: nat)
    requires IsRun(run) && j < i < |run.states| && run.steps[j] == CallList(k, at) && l == |run.states[j].lists|
    ensures l < |run.states[i].lists| && run.states[i].lists[l].session == k
    ensures var exports := run.states[j].exports;
            k in exports && at < |exports[k]| && exports[k][at].PortalRef?
    ensures run.states[i].lists[l].answer.Some? ==>
              var (answer, before, after) :=
                (run.states[i].lists[l].answer.value, run.states[j].channels.Keys, run.states[i].channels.Keys);
              && (forall id :: id in before ==> Lists(answer, id))
              && (forall id :: Lists(answer, id) ==> id in after) && Once(answer)
              && (before == after ==> forall id :: Lists(answer, id) <==> id in after)
              && forall n :: 0 <= n < |answer| ==> WasEntry(run, j, i, answer[n])
  {
    hide Next, Once, WasEntry;
    AlwaysListsSound(run, i);
    CallMakes(run.states[j], k, at, run.states[j + 1]);
    ListHistory(run, j, i, k, at, l);
    assert ListSound(run.states[i].lists[l], run.states[i].channels.Keys);
  }

  ghost predicate Finds(s: State, step: Step, n: nat) {
    step == ConnectFind(n) && n < |s.connects|
  }

  /** The lookup of a connect call finds a channel exactly when its id is registered, and then the channel
      that carries the id; an id that was ever listed is found ever after. */
  lemma ConnectFindsRegistered(run: Run, j: nat, n: nat)
    requires IsRun(run) && j < |run.steps| && Finds(run.states[j], run.steps[j], n)
    ensures var (s, s', id) := (run.states[j], run.states[j + 1], run.states[j].connects[n].id);
            && n < |s'.connects|
            && (s'.connects[n].stage.Looking? <==> id in s.channels)
            && (s'.connects[n].stage == Unrecognized <==> id !in s.channels)
            && (id in s.channels ==>
                  (s'.connects[n].stage.channel < |s.allChannels|
                   && s.allChannels[s'.connects[n].stage.channel].id == id))
    ensures forall i: nat, l: nat | i <= j && l < |run.states[i].lists| ::
              (run.states[i].lists[l].answer.Some?
               && Lists(run.states[i].lists[l].answer.value, run.states[j].connects[n].id)) ==>
              run.states[j + 1].connects[n].stage.Looking?
  {
    var s, step, s' := run.states[j], run.steps[j], run.states[j + 1];
    AlwaysValid(run, j);
    assert PortalNext(s, step, s');
    forall i: nat, l: nat | i <= j && l < |run.states[i].lists| && run.states[i].lists[l].answer.Some?
                            && Lists(run.states[i].lists[l].answer.value, s.connects[n].id)
      ensures s.connects[n].id in s.channels
    {
      hide Next;
      ListedIsRegistered(run, i, j, l, s.connects[n].id);
    }
  }

  // ----- channels are as they were made

  /** The step makes channel `c` with this id and info. */
  predicate Makes(s: State, step: Step, c: nat, id: Uuid, info: ChannelInfo) {
    && c == |s.allChannels|
    && match step
       case CreateChannel(id', info') => id' == id && info' == info
       case RemoteConnect(_, id', info') => id' == id && info' == info
       case _ => false
  }

  lemma MakesStep(s: State, step: Step, s': State, c: nat)
    requires ChannelNext(s, step, s') || PortalNext(s, step, s')
    requires |s.allChannels| <= c < |s'.allChannels|
    ensures Makes(s, step, c, s'.allChannels[c].id, s'.allChannels[c].info)
    ensures var made := s'.allChannels[c];
            made.exportedAt == map[] && made.outboxes == map[] && made.connected == []
  {
  }

  /** In every state of every run, a channel has the id and the info with which it was made, and if it was not there
      at the start, a step made it. */
  lemma {:induction false} ChannelsAsMade(run: Run, i: nat, c: nat) returns (j: nat)
    requires IsRun(run) && i < |run.states| && c < |run.states[i].allChannels|
    ensures var (channel, first) := (run.states[i].allChannels[c], run.states[0].allChannels);
            if c < |first| then channel.id == first[c].id && channel.info == first[c].info
            else j < i && Makes(run.states[j], run.steps[j], c, channel.id, channel.info)
  {
    hide NetNext, SessionNext, FetchNext, GatewayNext, ManagerNext, ChannelNext, PortalNext;
    if i == 0 {
      j := 0;
    } else {
      var s, step, s' := run.states[i - 1], run.steps[i - 1], run.states[i];
      StepGrows(s, step, s');
      if c < |s.allChannels| {
        j := ChannelsAsMade(run, i - 1, c);
      } else {
        j := i - 1;
        StepFrame(s, step, s');
        if FetchNext(s, step, s') {
          FetchKeepsOutboxes(s, step, s');
        } else {
          MakesStep(s, step, s', c);
        }
        RunGrows(run, 0, i - 1);
      }
    }
  }

  // ----- positions of channels

  ghost predicate CachedSound(allChannels: seq<Channel>, exports: Tables) {
    forall c, k :: 0 <= c < |allChannels| && k in allChannels[c].exportedAt ==>
      Denotes(exports, k, allChannels[c].exportedAt[k], ChannelRef(c))
  }

  ghost predicate ConnectSound(t: ConnectTask, exports: Tables) {
    t.stage.HookingChannel? || t.stage.Installing? || t.stage.Connected? ==>
      Denotes(exports, t.session, t.stage.pos, ChannelRef(t.stage.channel))
  }

  ghost predicate ConnectsSound(connects: seq<ConnectTask>, exports: Tables) {
    forall n :: 0 <= n < |connects| ==> ConnectSound(connects[n], exports)
  }

  ghost predicate PositionsSound(s: State) {
    CachedSound(s.allChannels, s.exports) && ConnectsSound(s.connects, s.exports)
  }

  lemma PositionsGrow(s: State, exports: Tables)
    requires PositionsSound(s) && TablesGrow(s.exports, exports)
    ensures CachedSound(s.allChannels, exports) && ConnectsSound(s.connects, exports)
  {
  }

  lemma FetchKeepsCachedSound(s: State, step: Step, s': State)
    requires CachedSound(s.allChannels, s'.exports) && TasksSound(s.fetches, s.exports, s.dataChannels)
    requires FetchNext(s, step, s')
    ensures CachedSound(s'.allChannels, s'.exports)
  {
    if step.FetchHook? {
      assert TaskSound(s.fetches[step.fetch], s.exports, s.dataChannels);
    } else {
      assert s'.allChannels == s.allChannels;
    }
  }

  lemma FetchKeepsPositions(s: State, step: Step, s': State)
    requires PositionsSound(s) && Sound(s) && FetchNext(s, step, s')
    ensures PositionsSound(s')
  {
    hide FetchNext, CachedSound, ConnectsSound;
    FetchFrame(s, step, s');
    FetchGrows(s, step, s');
    PositionsGrow(s, s'.exports);
    FetchKeepsCachedSound(s, step, s');
  }

  lemma ChannelKeepsPositions(s: State, step: Step, s': State)
    requires PositionsSound(s) && ChannelNext(s, step, s')
    ensures PositionsSound(s')
  {
  }

  lemma PortalKeepsCachedSound(s: State, step: Step, s': State)
    requires CachedSound(s.allChannels, s'.exports) && ConnectsSound(s.connects, s'.exports) && PortalNext(s, step, s')
    ensures CachedSound(s'.allChannels, s'.exports)
  {
    if step.ConnectHook? {
      assert ConnectSound(s.connects[step.connect], s'.exports);
    } else {
      assert forall c :: 0 <= c < |s.allChannels| ==> s'.allChannels[c].exportedAt == s.allChannels[c].exportedAt;
    }
  }

  lemma PortalKeepsConnectsSound(s: State, step: Step, s': State)
    requires CachedSound(s.allChannels, s'.exports) && ConnectsSound(s.connects, s'.exports) && PortalNext(s, step, s')
    ensures ConnectsSound(s'.connects, s'.exports)
  {
    if step.ConnectHook? {
      assert ConnectSound(s.connects[step.connect], s'.exports);
    }
  }

  lemma PortalKeepsPositions(s: State, step: Step, s': State)
    requires PositionsSound(s) && PortalNext(s, step, s')
    ensures PositionsSound(s')
  {
    hide PortalNext, CachedSound, ConnectsSound;
    PortalGrows(s, step, s');
    PositionsGrow(s, s'.exports);
    PortalKeepsCachedSound(s, step, s');
    PortalKeepsConnectsSound(s, step, s');
  }

  lemma {:induction false} AlwaysPositionsSound(run: Run, i: nat)
    requires IsRun(run) && i < |run.states|
    ensures PositionsSound(run.states[i])
  {
    hide NetNext, SessionNext, FetchNext, GatewayNext, ManagerNext, ChannelNext, PortalNext;
    if i == 0 {
    } else {
      AlwaysPositionsSound(run, i - 1);
      AlwaysSound(run, i - 1);
      var s, step, s' := run.states[i - 1], run.steps[i - 1], run.states[i];
      StepGrows(s, step, s');
      PositionsGrow(s, s'.exports);
      if FetchNext(s, step, s') {
        FetchKeepsPositions(s, step, s');
      } else if ChannelNext(s, step, s') {
        ChannelKeepsPositions(s, step, s');
      } else if PortalNext(s, step, s') {
        PortalKeepsPositions(s, step, s');
      } else {
        StepFrame(s, step, s');
      }
    }
  }

  /** In every interleaving, a channel's cached position for a session, and the position a connect call
      returns, denote that channel in that session's table. */
  lemma PositionsDenoteChannels(run: Run, i: nat, c: nat, k: Key, n: nat)
    requires IsRun(run) && i < |run.states|
    ensures var s := run.states[i];
            && (c < |s.allChannels| && k in s.allChannels[c].exportedAt ==>
                  Denotes(s.exports, k, s.allChannels[c].exportedAt[k], ChannelRef(c)))
            && (n < |s.connects| && s.connects[n].stage.Connected? ==>
                  Denotes(s.exports, s.connects[n].session, s.connects[n].stage.pos,
                          ChannelRef(s.connects[n].stage.channel)))
  {
    hide Next;
    AlwaysPositionsSound(run, i);
    assert n < |run.states[i].connects| ==> ConnectSound(run.states[i].connects[n], run.states[i].exports);
  }
}
