/** The model collection, whose maps are updated in place; every provider id follows its own slot. */
module ModelRegistry {
  import opened Common
  import opened ModelRefresh
  import opened ModelRefreshSafety

  type ProviderId = string
  type Provider = nat

  /** What the maps hold for one provider id, and which of its refreshes have an aborted signal. */
  datatype Entry = Entry(
    registered: bool, generation: nat, controller: Option<RefreshId>, chain: Option<PublicationId>,
    aborted: set<RefreshId>)

  /** The entry shows the slot. */
  ghost predicate Shows(e: Entry, s: Slot) {
    && Inv(s)
    && e.registered == s.registered && e.generation == s.generation
    && e.controller == s.controller && e.chain == s.chain
    && forall r <- s.refreshes :: s.refreshes[r].aborted <==> r in e.aborted
  }

  /** The next generation begins, and the signal of the refresh in flight is aborted. */
  function SupersededEntry(e: Entry): Entry {
    e.(generation := e.generation + 1, controller := None,
       aborted := if e.controller.Some? then e.aborted + {e.controller.value} else e.aborted)
  }

  lemma SupersedeShows(e: Entry, s: Slot)
    requires Shows(e, s)
    ensures Shows(SupersededEntry(e), Supersede(s))
  {
    hide QueueOk, LogOk, StoringOk, UpdatesOk;
    SupersedeOk(s, s.registered);
    assert Supersede(s).(registered := s.registered) == Supersede(s);
  }

  lemma BeginShows(e: Entry, s: Slot, r: RefreshId)
    requires Shows(e, Supersede(s)) && Inv(s) && s.registered && r !in s.refreshes && r !in e.aborted
    ensures Shows(e.(controller := Some(r)), Begin(s, r))
  {
    hide QueueOk, LogOk, StoringOk, UpdatesOk;
    BeginOk(s, r);
  }

  lemma JoinShows(e: Entry, s: Slot, r: RefreshId, persists: bool, updates: bool)
    requires Shows(e, s) && r in s.refreshes
    ensures Shows(e.(chain := Some(|s.publications|)), Join(s, r, persists, updates))
  {
    hide QueueOk, LogOk, StoringOk, UpdatesOk;
    JoinOk(s, r, persists, updates);
  }

  lemma RegisterShows(e: Entry, s: Slot, registered: bool)
    requires Shows(e, s) && Inv(s.(registered := registered))
    ensures Shows(e.(registered := registered), s.(registered := registered))
  {
  }

  lemma NotAborted(e: Entry, s: Slot, r: RefreshId)
    requires Shows(e, s) && r !in e.aborted && r !in s.refreshes
    ensures r !in SupersededEntry(e).aborted
  {
  }

  lemma EndShows(e: Entry, s: Slot)
    requires Shows(e, s)
    ensures Shows(e.(controller := None), s.(controller := None))
  {
    hide QueueOk, LogOk, StoringOk, UpdatesOk;
    EndOk(s, 0);
  }

  lemma ChainEndShows(e: Entry, s: Slot, k: PublicationId)
    requires Shows(e, s) && IsDone(s, k)
    ensures var s' := Apply(s, ChainEnds(k)); Shows(e.(chain := s'.chain), s')
  {
    hide Inv;
    ChainEndsOk(s, k);
  }

  /** A publication that moves on changes nothing that the maps hold. */
  lemma SameEntryShows(e: Entry, s: Slot, s': Slot)
    requires Shows(e, s) && Inv(s')
    requires s' == s.(publications := s'.publications, writes := s'.writes, updates := s'.updates)
    ensures Shows(e, s')
  {
    hide Inv;
  }

  lemma EntryShown(e: Entry, s: Slot)
    requires Shows(e, s)
    ensures e.generation == s.generation && e.controller == s.controller && e.chain == s.chain
  {
  }

  /** What the closure of one publication remembers. */
  datatype Task = Task(publication: PublicationId, refresh: RefreshId, generation: nat, persists: bool, updates: bool)

  ghost predicate TaskOf(s: Slot, t: Task) {
    && t.publication < |s.publications| && t.refresh in s.refreshes
    && s.publications[t.publication].refresh == t.refresh && s.refreshes[t.refresh].generation == t.generation
    && s.publications[t.publication].persists == t.persists && s.publications[t.publication].updates == t.updates
  }

  datatype Progress = Refused | MustStore | Published(ranUpdate: bool)

  /** The maps of the collection. */
  datatype Maps = Maps(
    providers: map<ProviderId, Provider>, generations: map<ProviderId, nat>, controllers: map<ProviderId, RefreshId>,
    chains: map<ProviderId, PublicationId>, aborted: map<ProviderId, set<RefreshId>>)
  {
    function At(id: ProviderId): Entry {
      Entry(
        id in providers,
        if id in generations then generations[id] else 0,
        if id in controllers then Some(controllers[id]) else None,
        if id in chains then Some(chains[id]) else None,
        if id in aborted then aborted[id] else {})
    }
  }

  type Slots = map<ProviderId, Slot>

  function SlotOf(slots: Slots, id: ProviderId): Slot {
    if id in slots then slots[id] else ModelRefresh.INITIAL
  }

  ghost predicate AllShown(m: Maps, slots: Slots) {
    forall id :: Shows(m.At(id), SlotOf(slots, id))
  }

  ghost predicate OthersKept(id: ProviderId, m: Maps, m': Maps) {
    forall other :: other != id ==> m'.At(other) == m.At(other)
  }

  lemma StillShown(id: ProviderId, m: Maps, m': Maps, slots: Slots, s: Slot)
    requires AllShown(m, slots) && OthersKept(id, m, m') && Shows(m'.At(id), s)
    ensures AllShown(m', slots[id := s])
  {
    hide Shows;
    forall other ensures Shows(m'.At(other), SlotOf(slots[id := s], other)) {
      assert Shows(m.At(other), SlotOf(slots, other));
    }
  }

  lemma SlotInv(id: ProviderId, m: Maps, slots: Slots)
    requires AllShown(m, slots)
    ensures Shows(m.At(id), SlotOf(slots, id)) && Inv(SlotOf(slots, id))
  {
  }

  function SupersededIn(s: Slot, yes: bool): Slot {
    if yes then Supersede(s) else s
  }

  /** Once the ids with a provider or a refresh are superseded, the providers may go. */
  lemma UnregisterOne(id: ProviderId, m: Maps, s: Slot, m': Maps, s': Slot)
    requires Shows(m.At(id), s) && Shows(m'.At(id), s')
    requires s' == SupersededIn(s, id in m.providers.Keys + m.controllers.Keys)
    ensures Clear(s) == s'.(registered := false) && Shows(m'.(providers := map[]).At(id), s'.(registered := false))
  {
    hide Inv, Supersede;
    ClearOk(s);
    RegisterShows(m'.At(id), s', false);
    assert m'.(providers := map[]).At(id) == m'.At(id).(registered := false);
  }

  lemma UnregisterAll(m: Maps, slots: Slots, m': Maps, slots': Slots)
    requires AllShown(m, slots) && AllShown(m', slots')
    requires forall id ::
               SlotOf(slots', id) == SupersededIn(SlotOf(slots, id), id in m.providers.Keys + m.controllers.Keys)
    ensures forall id :: Clear(SlotOf(slots, id)) == SlotOf(slots', id).(registered := false)
    ensures AllShown(m'.(providers := map[]), map id | id in slots' :: slots'[id].(registered := false))
  {
    hide Shows, Clear, SupersededIn;
    var (m'', slots'') := (m'.(providers := map[]), map id | id in slots' :: slots'[id].(registered := false));
    forall id
      ensures Shows(m''.At(id), SlotOf(slots'', id))
      ensures Clear(SlotOf(slots, id)) == SlotOf(slots', id).(registered := false)
    {
      assert Shows(m.At(id), SlotOf(slots, id)) && Shows(m'.At(id), SlotOf(slots', id));
      UnregisterOne(id, m, SlotOf(slots, id), m', SlotOf(slots', id));
      assert SlotOf(slots'', id) == SlotOf(slots', id).(registered := false);
    }
  }

  class ModelsImpl {
    var providers: map<ProviderId, Provider>
    var refreshGenerations: map<ProviderId, nat>
    var refreshControllers: map<ProviderId, RefreshId>
    var publicationChains: map<ProviderId, PublicationId>
    var abortedSignals: map<ProviderId, set<RefreshId>>
    ghost var slots: Slots

    ghost function Now(): Maps
      reads this
    {
      Maps(providers, refreshGenerations, refreshControllers, publicationChains, abortedSignals)
    }

    ghost predicate Valid()
      reads this
    {
      AllShown(Now(), slots)
    }

    constructor ()
      ensures Valid() && slots == map[]
    {
      providers, refreshGenerations, refreshControllers, publicationChains := map[], map[], map[], map[];
      abortedSignals, slots := map[], map[];
    }

    method NextGeneration(id: ProviderId) returns (generation: nat)
      modifies this`refreshGenerations, this`refreshControllers, this`abortedSignals
      ensures Now().At(id) == SupersededEntry(old(Now()).At(id)) && generation == Now().At(id).generation
      ensures OthersKept(id, old(Now()), Now()) && refreshControllers == old(refreshControllers) - {id}
    {
      generation := (if id in refreshGenerations then refreshGenerations[id] else 0) + 1;
      refreshGenerations := refreshGenerations[id := generation];
      if id in refreshControllers {
        var signals := if id in abortedSignals then abortedSignals[id] else {};
        abortedSignals := abortedSignals[id := signals + {refreshControllers[id]}];
      }
      refreshControllers := refreshControllers - {id};
    }

    method SupersedeProviderRefresh(id: ProviderId) returns (generation: nat)
      requires Valid()
      modifies this`refreshGenerations, this`refreshControllers, this`abortedSignals, this`slots
      ensures Valid() && slots == old(slots)[id := Supersede(SlotOf(old(slots), id))]
      ensures generation == SlotOf(slots, id).generation && refreshControllers == old(refreshControllers) - {id}
      ensures Now().At(id) == SupersededEntry(old(Now()).At(id))
    {
      hide AllShown, OthersKept, Shows, Supersede;
      ghost var (before, s) := (Now(), SlotOf(slots, id));
      SlotInv(id, before, slots);
      SupersedeShows(before.At(id), s);
      generation := NextGeneration(id);
      StillShown(id, before, Now(), slots, Supersede(s));
      EntryShown(Now().At(id), Supersede(s));
      slots := slots[id := Supersede(s)];
    }

    method Register(id: ProviderId, provider: Option<Provider>)
      requires Valid() && Inv(SlotOf(slots, id).(registered := provider.Some?))
      modifies this`providers, this`slots
      ensures Valid() && slots == old(slots)[id := SlotOf(old(slots), id).(registered := provider.Some?)]
      ensures providers == if provider.Some? then old(providers)[id := provider.value] else old(providers) - {id}
    {
      hide AllShown, Shows, Inv;
      ghost var (before, s) := (Now(), SlotOf(slots, id));
      SlotInv(id, before, slots);
      RegisterShows(before.At(id), s, provider.Some?);
      providers := if provider.Some? then providers[id := provider.value] else providers - {id};
      assert Now().At(id) == before.At(id).(registered := provider.Some?);
      StillShown(id, before, Now(), slots, s.(registered := provider.Some?));
      slots := slots[id := s.(registered := provider.Some?)];
    }

    method SetProvider(id: ProviderId, provider: Provider)
      requires Valid()
      modifies this
      ensures Valid() && slots == old(slots)[id := Apply(SlotOf(old(slots), id), Event.SetProvider)]
      ensures providers == old(providers)[id := provider]
    {
      hide AllShown, Shows, Inv, Supersede;
      SlotInv(id, Now(), slots);
      SupersedeOk(SlotOf(slots, id), true);
      var _ := SupersedeProviderRefresh(id);
      Register(id, Some(provider));
    }

    method DeleteProvider(id: ProviderId)
      requires Valid()
      modifies this
      ensures Valid() && slots == old(slots)[id := Apply(SlotOf(old(slots), id), Event.DeleteProvider)]
      ensures providers == old(providers) - {id}
    {
      hide AllShown, Shows, Inv, Supersede;
      SlotInv(id, Now(), slots);
      SupersedeOk(SlotOf(slots, id), false);
      var _ := SupersedeProviderRefresh(id);
      Register(id, None);
    }

    method SupersedeAll(ids: set<ProviderId>)
      requires Valid()
      modifies this`refreshGenerations, this`refreshControllers, this`abortedSignals, this`slots
      ensures Valid() && forall id :: SlotOf(slots, id) == SupersededIn(SlotOf(old(slots), id), id in ids)
    {
      hide AllShown, Shows, Inv, Supersede, Now;
      var rest := ids;
      while rest != {}
        invariant Valid() && rest <= ids
        invariant forall id :: SlotOf(slots, id) == SupersededIn(SlotOf(old(slots), id), id in ids - rest)
        decreases |rest|
      {
        var id :| id in rest;
        rest := rest - {id};
        ghost var before := slots;
        var _ := SupersedeProviderRefresh(id);
        assert forall other :: other != id ==> SlotOf(slots, other) == SlotOf(before, other);
      }
    }

    /** Ids that have a provider or a refresh in flight are superseded, then the providers go. */
    method ClearProviders()
      requires Valid()
      modifies this
      ensures Valid() && providers == map[]
      ensures forall id :: SlotOf(slots, id) == Apply(SlotOf(old(slots), id), Event.ClearProviders)
    {
      hide AllShown, Shows, Inv, Supersede, SupersededIn, Clear;
      SupersedeAll(providers.Keys + refreshControllers.Keys);
      UnregisterAll(old(Now()), old(slots), Now(), slots);
      providers := map[];
      slots := map id | id in slots :: slots[id].(registered := false);
    }

    method BeginProviderRefresh(id: ProviderId, refresh: RefreshId) returns (generation: nat)
      requires Valid() && Enabled(SlotOf(slots, id), Event.BeginRefresh(refresh)) && refresh !in Now().At(id).aborted
      modifies this
      ensures Valid() && slots == old(slots)[id := Apply(SlotOf(old(slots), id), Event.BeginRefresh(refresh))]
      ensures SlotOf(slots, id).refreshes[refresh] == Refresh(generation, false)
    {
      hide AllShown, Shows, Inv, Supersede;
      ghost var (s, first) := (SlotOf(slots, id), Now());
      SlotInv(id, first, slots);
      generation := SupersedeProviderRefresh(id);
      ghost var before := Now();
      SlotInv(id, before, slots);
      NotAborted(first.At(id), s, refresh);
      BeginShows(before.At(id), s, refresh);
      refreshControllers := refreshControllers[id := refresh];
      assert Now().At(id) == before.At(id).(controller := Some(refresh));
      StillShown(id, before, Now(), slots, Begin(s, refresh));
      slots := slots[id := Begin(s, refresh)];
    }

    /** The end of a refresh forgets its controller unless a newer one has replaced it. */
    method EndRefresh(id: ProviderId, refresh: RefreshId)
      requires Valid() && Enabled(SlotOf(slots, id), Event.EndRefresh(refresh))
      modifies this
      ensures Valid() && slots == old(slots)[id := Apply(SlotOf(old(slots), id), Event.EndRefresh(refresh))]
    {
      hide AllShown, Shows, Inv;
      ghost var (before, s) := (Now(), SlotOf(slots, id));
      SlotInv(id, before, slots);
      EndShows(before.At(id), s);
      EntryShown(before.At(id), s);
      ghost var s' := Apply(s, Event.EndRefresh(refresh));
      if id in refreshControllers && refreshControllers[id] == refresh {
        refreshControllers := refreshControllers - {id};
        assert Now().At(id) == before.At(id).(controller := None);
      } else {
        assert s' == s;
      }
      StillShown(id, before, Now(), slots, s');
      slots := slots[id := s'];
    }

    /** A publication joins the queue of its provider; tail is the promise that stands for its end. */
    method PublishProviderModels(
        id: ProviderId, refresh: RefreshId, generation: nat, persists: bool, updates: bool, tail: PublicationId)
      returns (task: Task)
      requires Valid() && refresh in SlotOf(slots, id).refreshes && tail == |SlotOf(slots, id).publications|
      requires SlotOf(slots, id).refreshes[refresh].generation == generation
      modifies this
      ensures Valid() && slots == old(slots)[id := Apply(SlotOf(old(slots), id), Publish(refresh, persists, updates))]
      ensures TaskOf(SlotOf(slots, id), task) && task.publication == tail
    {
      hide AllShown, Shows, Inv;
      ghost var (before, s) := (Now(), SlotOf(slots, id));
      SlotInv(id, before, slots);
      JoinShows(before.At(id), s, refresh, persists, updates);
      publicationChains := publicationChains[id := tail];
      assert Now().At(id) == before.At(id).(chain := Some(tail));
      ghost var s' := Join(s, refresh, persists, updates);
      StillShown(id, before, Now(), slots, s');
      slots := slots[id := s'];
      task := Task(tail, refresh, generation, persists, updates);
    }

    /** The check made before anything is stored and again before the update. */
    method MayStillPublish(id: ProviderId, task: Task) returns (ok: bool)
      requires Valid() && TaskOf(SlotOf(slots, id), task)
      ensures ok == MayProceed(SlotOf(slots, id), task.publication)
    {
      SlotInv(id, Now(), slots);
      var aborted := id in abortedSignals && task.refresh in abortedSignals[id];
      var generation := if id in refreshGenerations then refreshGenerations[id] else 0;
      assert Now().At(id).generation == generation && (task.refresh in Now().At(id).aborted <==> aborted);
      ok := !aborted && generation == task.generation;
    }

    /** The turn of a publication has come. Published(true) means that its update has been run. */
    method ResumePublication(id: ProviderId, task: Task) returns (progress: Progress)
      requires Valid() && TaskOf(SlotOf(slots, id), task) && Enabled(SlotOf(slots, id), Resume(task.publication))
      modifies this`slots
      ensures Valid() && slots == old(slots)[id := Apply(SlotOf(old(slots), id), Resume(task.publication))]
      ensures progress.MustStore? <==> SlotOf(slots, id).publications[task.publication].phase.Storing?
      ensures SlotOf(slots, id).updates
           == SlotOf(old(slots), id).updates + if progress == Published(true) then [task.publication] else []
    {
      hide AllShown, Shows, Inv;
      ghost var (before, s) := (Now(), SlotOf(slots, id));
      SlotInv(id, before, slots);
      StartOk(s, task.publication);
      ghost var s' := Start(s, task.publication);
      SameEntryShows(before.At(id), s, s');
      StillShown(id, before, before, slots, s');
      var ok := MayStillPublish(id, task);
      slots := slots[id := s'];
      progress := if !ok then Refused else if task.persists then MustStore else Published(task.updates);
    }

    /** The store has answered; a failure is left to the caller of publish. */
    method StoreSettled(id: ProviderId, task: Task, ok: bool) returns (progress: Progress)
      requires Valid() && TaskOf(SlotOf(slots, id), task)
               && Enabled(SlotOf(slots, id), StoreSettles(task.publication, ok))
      modifies this`slots
      ensures Valid() && slots == old(slots)[id := Apply(SlotOf(old(slots), id), StoreSettles(task.publication, ok))]
      ensures SlotOf(slots, id).updates
           == SlotOf(old(slots), id).updates + if progress == Published(true) then [task.publication] else []
    {
      hide AllShown, Shows, Inv;
      ghost var (before, s) := (Now(), SlotOf(slots, id));
      SlotInv(id, before, slots);
      StoreDoneOk(s, task.publication, ok);
      ghost var s' := StoreDone(s, task.publication, ok);
      SameEntryShows(before.At(id), s, s');
      StillShown(id, before, before, slots, s');
      var current := MayStillPublish(id, task);
      slots := slots[id := s'];
      progress := if !ok || !current then Refused else Published(task.updates);
    }

    /** The end of the queue is forgotten unless another publication has joined it. */
    method ChainEnded(id: ProviderId, tail: PublicationId)
      requires Valid() && IsDone(SlotOf(slots, id), tail)
      modifies this
      ensures Valid() && slots == old(slots)[id := Apply(SlotOf(old(slots), id), ChainEnds(tail))]
    {
      hide AllShown, Shows, Inv;
      ghost var (before, s) := (Now(), SlotOf(slots, id));
      SlotInv(id, before, slots);
      ChainEndShows(before.At(id), s, tail);
      EntryShown(before.At(id), s);
      ghost var s' := Apply(s, ChainEnds(tail));
      if id in publicationChains && publicationChains[id] == tail {
        publicationChains := publicationChains - {id};
        assert Now().At(id) == before.At(id).(chain := None);
      } else {
        assert s' == s;
      }
      StillShown(id, before, Now(), slots, s');
      slots := slots[id := s'];
    }
  }
}
