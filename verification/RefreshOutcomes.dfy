/** Exactly which publications are stored and update the catalog, and what aborting a refresh means for its own. */
module RefreshOutcomes {
  import opened Common
  import opened ModelRefresh
  import opened ModelRefreshSafety

  /** The publication comes from the newest refresh, and nobody has aborted that. */
  predicate IsCurrent(s: Slot, k: PublicationId)
    requires k < |s.publications|
  {
    var r := s.publications[k].refresh;
    r in s.refreshes && s.refreshes[r] == Refresh(s.generation, false)
  }

  predicate IsAborted(s: Slot, r: RefreshId) {
    r in s.refreshes && s.refreshes[r].aborted
  }

  /** The step in which the publication comes to its update. */
  predicate ReachesUpdate(s: Slot, e: Event, k: PublicationId)
    requires k < |s.publications|
  {
    e == (if s.publications[k].persists then StoreSettles(k, true) else Resume(k))
  }

  /** A step updates the catalog exactly when a current publication with an update comes to it. */
  lemma UpdatesExactly(s: Slot, e: Event)
    requires Inv(s) && Enabled(s, e)
    ensures var s' := Apply(s, e);
            if k: nat :| k < |s.publications| && ReachesUpdate(s, e, k) && IsCurrent(s, k) && s.publications[k].updates
            then s'.updates == s.updates + [k] else s'.updates == s.updates
  {
  }

  /** It begins to be stored exactly when it is current in its turn, and is written exactly when the store succeeds. */
  lemma StoresExactly(s: Slot, e: Event, k: PublicationId)
    requires Enabled(s, e) && k < |s.publications|
    ensures var s' := Apply(s, e);
            && k < |s'.publications|
            && (s'.publications[k].phase.Storing? && !s.publications[k].phase.Storing? <==>
                  e == Resume(k) && IsCurrent(s, k) && s.publications[k].persists)
            && (e == StoreSettles(k, true) ==> s'.writes == s.writes + [k])
            && (!e.StoreSettles? || !e.ok ==> s'.writes == s.writes)
            && ((e.Resume? || e.StoreSettles?) && e.publication == k && !s'.publications[k].phase.Storing? ==>
                  s'.publications[k].phase.Done?)
  {
  }

  /** No publication of the refresh is being stored that was not already. */
  ghost predicate NoNewStoring(s: Slot, s': Slot, r: RefreshId) {
    forall k :: 0 <= k < |s'.publications| && s'.publications[k].refresh == r && s'.publications[k].phase.Storing? ==>
      k < |s.publications| && s.publications[k].phase.Storing?
  }

  /** The catalog updates since then are all of other refreshes. */
  ghost predicate NoNewUpdate(s: Slot, s': Slot, r: RefreshId) {
    && s.updates <= s'.updates
    && forall u :: |s.updates| <= u < |s'.updates| ==>
         s'.updates[u] < |s'.publications| && s'.publications[s'.updates[u]].refresh != r
  }

  lemma OwnersStay(s: Slot, e: Event)
    requires Enabled(s, e)
    ensures SameOwners(s, Apply(s, e))
  {
  }

  lemma AbortedStep(s: Slot, e: Event, r: RefreshId)
    requires Inv(s) && Enabled(s, e) && IsAborted(s, r)
    ensures IsAborted(Apply(s, e), r) && NoNewUpdate(s, Apply(s, e), r) && NoNewStoring(s, Apply(s, e), r)
  {
    var s' := Apply(s, e);
    OwnersStay(s, e);
    UpdatesExactly(s, e);
    AbortedStays(s, e, r);
    forall k | 0 <= k < |s'.publications| && s'.publications[k].refresh == r && s'.publications[k].phase.Storing?
      ensures k < |s.publications| && s.publications[k].phase.Storing?
    {
      if k < |s.publications| {
        StoresExactly(s, e, k);
      } else {
        JoinsWaiting(s, e, k);
      }
    }
  }

  lemma AbortedStays(s: Slot, e: Event, r: RefreshId)
    requires Enabled(s, e) && IsAborted(s, r)
    ensures IsAborted(Apply(s, e), r)
  {
  }

  lemma JoinsWaiting(s: Slot, e: Event, k: PublicationId)
    requires Enabled(s, e) && |s.publications| <= k < |Apply(s, e).publications|
    ensures Apply(s, e).publications[k].phase.Waiting?
  {
  }

  /**
   * Once a refresh is aborted it stays so: no publication of it updates the catalog any more, and none begins to be
   * stored that had not begun.
   */
  lemma {:induction false} NothingFromAborted(states: seq<Slot>, events: seq<Event>, i: nat, n: nat, r: RefreshId)
    requires Execution(states, events) && i <= n <= |events| && IsAborted(states[i], r)
    ensures IsAborted(states[n], r)
    ensures NoNewUpdate(states[i], states[n], r) && NoNewStoring(states[i], states[n], r)
  {
    hide Apply, Enabled, Inv, IsAborted;
    if i < n {
      var (s, e) := (states[n - 1], events[n - 1]);
      NothingFromAborted(states, events, i, n - 1, r);
      ExecutionKeepsInv(states, events, n - 1);
      AbortedStep(s, e, r);
      OwnersStay(s, e);
      assert states[n] == Apply(s, e);
    }
  }

  /** A caller's abort, and whatever supersedes a refresh that is still in flight, aborts it. */
  lemma AbortedBy(s: Slot, e: Event, r: RefreshId)
    requires Enabled(s, e) && r in s.refreshes
    requires e == CallerAborts(r)
             || (s.controller == Some(r)
                 && (e.SetProvider? || e.DeleteProvider? || e.ClearProviders? || e.BeginRefresh?))
    ensures IsAborted(Apply(s, e), r)
  {
  }

  /** Nothing else aborts a refresh, or changes the generation of one. */
  lemma AbortsNothingElse(s: Slot, e: Event, r: RefreshId)
    requires Enabled(s, e) && r in s.refreshes
    ensures r in Apply(s, e).refreshes && Apply(s, e).refreshes[r].generation == s.refreshes[r].generation
    ensures IsAborted(Apply(s, e), r) ==>
              || s.refreshes[r].aborted || e == CallerAborts(r)
              || (s.controller == Some(r)
                  && (e.SetProvider? || e.DeleteProvider? || e.ClearProviders? || e.BeginRefresh?))
  {
  }

  /** A refresh that begins is the newest, is in flight, and supersedes all others. */
  lemma BeginsNewest(s: Slot, r: RefreshId)
    requires Inv(s) && Enabled(s, BeginRefresh(r))
    ensures var s' := Apply(s, BeginRefresh(r));
            && r in s'.refreshes && s'.refreshes[r] == Refresh(s'.generation, false) && s'.controller == Some(r)
            && s'.registered && forall q <- s.refreshes :: Superseded(s', q)
  {
    hide QueueOk, LogOk, StoringOk, UpdatesOk;
  }

  /** Only the events of the registry change whether there is a provider, and a generation moves on only with one. */
  lemma RegistryFollows(s: Slot, e: Event)
    requires Enabled(s, e)
    ensures Apply(s, e).registered <==> e.SetProvider? || (s.registered && !e.DeleteProvider? && !e.ClearProviders?)
    ensures Apply(s, e).generation != s.generation ==>
              e.SetProvider? || e.DeleteProvider? || e.ClearProviders? || e.BeginRefresh?
    ensures e.EndRefresh? ==>
              Apply(s, e) == s.(controller := if s.controller == Some(e.refresh) then None else s.controller)
    ensures e.ChainEnds? ==> Apply(s, e) == s.(chain := if s.chain == Some(e.publication) then None else s.chain)
  {
  }
}
