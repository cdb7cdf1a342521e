/**
 * Catalog refreshes of one provider. Every refresh has a generation; what it publishes queues behind
 * the publication before it, is persisted, and only then updates the catalog in memory. Each await ends
 * a step. Providers do not share any of this state, so one provider id is followed.
 */
module ModelRefresh {
  import opened Common

  type RefreshId = nat
  type PublicationId = nat

  datatype Refresh = Refresh(generation: nat, aborted: bool)

  datatype Phase = Waiting | Storing | Done

  /** previous is the end of the queue when the publication joined it. */
  datatype Publication = Publication(
    refresh: RefreshId, persists: bool, updates: bool, previous: Option<PublicationId>, phase: Phase)

  /** writes and updates: the store mutations completed and the catalog updates run so far, in order. */
  datatype Slot = Slot(
    registered: bool,
    generation: nat,
    controller: Option<RefreshId>,
    chain: Option<PublicationId>,
    refreshes: map<RefreshId, Refresh>,
    publications: seq<Publication>,
    writes: seq<PublicationId>,
    updates: seq<PublicationId>)

  datatype Event =
    | SetProvider
    | DeleteProvider
    | ClearProviders
    | BeginRefresh(refresh: RefreshId)
    | EndRefresh(refresh: RefreshId)
    | CallerAborts(refresh: RefreshId)
    | Publish(refresh: RefreshId, persists: bool, updates: bool)
    | Resume(publication: PublicationId)
    | StoreSettles(publication: PublicationId, ok: bool)
    | ChainEnds(publication: PublicationId)

  const INITIAL := Slot(false, 0, None, None, map[], [], [], [])

  function Abort(s: Slot, r: RefreshId): Slot {
    if r in s.refreshes then s.(refreshes := s.refreshes[r := s.refreshes[r].(aborted := true)]) else s
  }

  function Supersede(s: Slot): Slot {
    var t := s.(generation := s.generation + 1, controller := None);
    if s.controller.Some? then Abort(t, s.controller.value) else t
  }

  function Begin(s: Slot, r: RefreshId): Slot {
    var t := Supersede(s);
    t.(controller := Some(r), refreshes := t.refreshes[r := Refresh(t.generation, false)])
  }

  /** Only an id with a provider or a refresh in flight is superseded. */
  function Clear(s: Slot): Slot {
    (if s.registered || s.controller.Some? then Supersede(s) else s).(registered := false)
  }

  function Join(s: Slot, r: RefreshId, persists: bool, updates: bool): Slot {
    s.(publications := s.publications + [Publication(r, persists, updates, s.chain, Waiting)],
       chain := Some(|s.publications|))
  }

  /** The check made before anything is stored, and again before the update. */
  predicate MayProceed(s: Slot, k: PublicationId)
    requires k < |s.publications|
  {
    var r := s.publications[k].refresh;
    r in s.refreshes && !s.refreshes[r].aborted && s.refreshes[r].generation == s.generation
  }

  function SetPhase(s: Slot, k: PublicationId, phase: Phase): Slot
    requires k < |s.publications|
  {
    s.(publications := s.publications[k := s.publications[k].(phase := phase)])
  }

  function Finish(s: Slot, k: PublicationId): Slot
    requires k < |s.publications|
  {
    var t := SetPhase(s, k, Done);
    if MayProceed(s, k) && s.publications[k].updates then t.(updates := s.updates + [k]) else t
  }

  function Start(s: Slot, k: PublicationId): Slot
    requires k < |s.publications|
  {
    if !MayProceed(s, k) then SetPhase(s, k, Done)
    else if s.publications[k].persists then SetPhase(s, k, Storing)
    else Finish(s, k)
  }

  /** A store mutation that fails leaves the store as it was, and nothing is updated. */
  function StoreDone(s: Slot, k: PublicationId, ok: bool): Slot
    requires k < |s.publications|
  {
    if ok then Finish(s.(writes := s.writes + [k]), k) else SetPhase(s, k, Done)
  }

  predicate IsDone(s: Slot, k: PublicationId) {
    k < |s.publications| && s.publications[k].phase.Done?
  }

  predicate Enabled(s: Slot, e: Event) {
    match e
    case BeginRefresh(r) => s.registered && r !in s.refreshes
    case EndRefresh(r) => r in s.refreshes
    case CallerAborts(r) => r in s.refreshes
    case Publish(r, _, _) => r in s.refreshes
    case Resume(k) =>
      && k < |s.publications| && s.publications[k].phase.Waiting?
      && (s.publications[k].previous.Some? ==> IsDone(s, s.publications[k].previous.value))
    case StoreSettles(k, _) => k < |s.publications| && s.publications[k].phase.Storing?
    case ChainEnds(k) => IsDone(s, k)
    case _ => true
  }

  function Apply(s: Slot, e: Event): Slot
    requires Enabled(s, e)
  {
    match e
    case SetProvider => Supersede(s).(registered := true)
    case DeleteProvider => Supersede(s).(registered := false)
    case ClearProviders => Clear(s)
    case BeginRefresh(r) => Begin(s, r)
    case EndRefresh(r) => if s.controller == Some(r) then s.(controller := None) else s
    case CallerAborts(r) => Abort(s, r)
    case Publish(r, persists, updates) => Join(s, r, persists, updates)
    case Resume(k) => Start(s, k)
    case StoreSettles(k, ok) => StoreDone(s, k, ok)
    case ChainEnds(k) => if s.chain == Some(k) then s.(chain := None) else s
  }

  ghost predicate Execution(states: seq<Slot>, events: seq<Event>) {
    && |states| == |events| + 1 && states[0] == INITIAL
    && forall i :: 0 <= i < |events| ==> Enabled(states[i], events[i]) && states[i + 1] == Apply(states[i], events[i])
  }
}

/** Publications run one at a time and never go back to an older generation. */
module ModelRefreshSafety {
  import opened Common
  import opened ModelRefresh

  /** The generation a publication belongs to. */
  function GenerationOf(s: Slot, k: PublicationId): nat {
    if k < |s.publications| && s.publications[k].refresh in s.refreshes
    then s.refreshes[s.publications[k].refresh].generation
    else 0
  }

  /** The newest generation belongs to a refresh only while the provider is registered. */
  ghost predicate RefreshesOk(s: Slot) {
    && (forall r <- s.refreshes :: 1 <= s.refreshes[r].generation <= s.generation)
    && (forall r <- s.refreshes :: s.refreshes[r].generation == s.generation ==> s.registered)
    && (s.controller.Some? ==> s.controller.value in s.refreshes)
  }

  /** What has left the queue has only finished publications before it. */
  ghost predicate QueueOk(s: Slot) {
    && (forall k :: 0 <= k < |s.publications| ==> s.publications[k].refresh in s.refreshes)
    && (forall j, k :: 0 <= j < k < |s.publications| && !s.publications[k].phase.Waiting? ==>
          s.publications[j].phase.Done?)
    && (forall j, k :: 0 <= j < k < |s.publications| && s.publications[k].previous != Some(k - 1) ==>
          s.publications[j].phase.Done?)
    && (forall j :: 0 <= j < |s.publications| && s.chain != Some(|s.publications| - 1) ==>
          s.publications[j].phase.Done?)
  }

  /** A log follows the queue, and its generations never decrease. */
  ghost predicate LogOk(s: Slot, log: seq<PublicationId>) {
    && (forall i :: 0 <= i < |log| ==> log[i] < |s.publications| && !s.publications[log[i]].phase.Waiting?)
    && (forall i, j :: 0 <= i < j < |log| ==> log[i] < log[j] && GenerationOf(s, log[i]) <= GenerationOf(s, log[j]))
  }

  /** What is being stored is newer than everything in the logs. */
  ghost predicate StoringOk(s: Slot) {
    forall k :: 0 <= k < |s.publications| && s.publications[k].phase.Storing? ==>
      && s.publications[k].persists && k !in s.writes && k !in s.updates
      && (forall i :: 0 <= i < |s.writes| ==> GenerationOf(s, s.writes[i]) <= GenerationOf(s, k))
      && (forall i :: 0 <= i < |s.updates| ==> GenerationOf(s, s.updates[i]) <= GenerationOf(s, k))
  }

  /** A catalog is updated only after what was to be persisted with it. */
  ghost predicate UpdatesOk(s: Slot) {
    forall k <- s.updates :: k < |s.publications| && (s.publications[k].persists ==> k in s.writes)
  }

  ghost predicate Inv(s: Slot) {
    RefreshesOk(s) && QueueOk(s) && LogOk(s, s.writes) && LogOk(s, s.updates) && StoringOk(s) && UpdatesOk(s)
  }

  /** Everything but the queue and the logs may change, as long as refreshes keep their generations. */
  ghost predicate SameQueue(s: Slot, s': Slot) {
    && s'.publications == s.publications && s'.writes == s.writes && s'.updates == s.updates && s'.chain == s.chain
    && s.generation <= s'.generation
    && (forall r <- s.refreshes :: r in s'.refreshes && s'.refreshes[r].generation == s.refreshes[r].generation)
  }

  lemma SameQueueOk(s: Slot, s': Slot)
    requires Inv(s) && SameQueue(s, s') && RefreshesOk(s')
    ensures Inv(s')
  {
    forall k | 0 <= k < |s.publications| ensures GenerationOf(s', k) == GenerationOf(s, k) {}
  }

  lemma SupersedeOk(s: Slot, registered: bool)
    requires Inv(s)
    ensures var s' := Supersede(s).(registered := registered); Inv(s') && SameQueue(s, s')
  {
    hide QueueOk, LogOk, StoringOk, UpdatesOk;
    SameQueueOk(s, Supersede(s).(registered := registered));
  }

  lemma ClearOk(s: Slot)
    requires Inv(s)
    ensures Inv(Clear(s)) && SameQueue(s, Clear(s))
  {
    hide QueueOk, LogOk, StoringOk, UpdatesOk;
    if s.registered || s.controller.Some? {
      SupersedeOk(s, false);
    } else {
      SameQueueOk(s, Clear(s));
    }
  }

  lemma BeginOk(s: Slot, r: RefreshId)
    requires Inv(s) && s.registered && r !in s.refreshes
    ensures Inv(Begin(s, r)) && SameQueue(s, Begin(s, r))
  {
    hide QueueOk, LogOk, StoringOk, UpdatesOk;
    SameQueueOk(s, Begin(s, r));
  }

  lemma AbortOk(s: Slot, r: RefreshId)
    requires Inv(s)
    ensures Inv(Abort(s, r)) && SameQueue(s, Abort(s, r))
  {
    hide QueueOk, LogOk, StoringOk, UpdatesOk;
    SameQueueOk(s, Abort(s, r));
  }

  lemma JoinOk(s: Slot, r: RefreshId, persists: bool, updates: bool)
    requires Inv(s) && r in s.refreshes
    ensures Inv(Join(s, r, persists, updates))
  {
    var s' := Join(s, r, persists, updates);
    forall k | 0 <= k < |s.publications| ensures GenerationOf(s', k) == GenerationOf(s, k) {}
  }

  /** The publications before one that may resume, or that is being stored, are finished. */
  ghost predicate AllDoneBefore(s: Slot, k: PublicationId) {
    forall j :: 0 <= j < k && j < |s.publications| ==> s.publications[j].phase.Done?
  }

  lemma ResumesInTurn(s: Slot, e: Event, k: PublicationId)
    requires Inv(s) && Enabled(s, e) && (e == Resume(k) || (e.StoreSettles? && e.publication == k))
    ensures AllDoneBefore(s, k)
  {
    hide LogOk, StoringOk, UpdatesOk;
    if e.Resume? && s.publications[k].previous.Some? && s.publications[k].previous.value == k - 1 {
      assert s.publications[k - 1].phase.Done?;
    }
  }

  lemma PhaseOk(s: Slot, k: PublicationId, phase: Phase)
    requires Inv(s) && k < |s.publications| && AllDoneBefore(s, k) && !s.publications[k].phase.Done? && !phase.Waiting?
    requires phase.Storing? ==> s.publications[k].phase.Waiting? && s.publications[k].persists && MayProceed(s, k)
    ensures Inv(SetPhase(s, k, phase))
  {
    var s' := SetPhase(s, k, phase);
    forall i | 0 <= i < |s.publications| ensures GenerationOf(s', i) == GenerationOf(s, i) {}
    PhaseKeepsQueue(s, k, phase);
    hide QueueOk;
    assert LogOk(s', s.writes) && LogOk(s', s.updates);
  }

  lemma PhaseKeepsQueue(s: Slot, k: PublicationId, phase: Phase)
    requires QueueOk(s) && k < |s.publications| && AllDoneBefore(s, k)
    requires !s.publications[k].phase.Done? && !phase.Waiting?
    ensures QueueOk(SetPhase(s, k, phase))
  {
  }

  /** The publication whose turn it is may be added to a log when its generation is the newest. */
  lemma LogGrows(s: Slot, log: seq<PublicationId>, k: PublicationId)
    requires LogOk(s, log) && QueueOk(s) && k < |s.publications| && !s.publications[k].phase.Waiting? && k !in log
    requires forall j :: k < j < |s.publications| ==> s.publications[j].phase.Waiting?
    requires forall i :: 0 <= i < |log| ==> GenerationOf(s, log[i]) <= GenerationOf(s, k)
    ensures LogOk(s, log + [k])
  {
    forall i | 0 <= i < |log| ensures log[i] < k {
      assert log[i] != k;
    }
  }

  lemma OlderThanCurrent(s: Slot, log: seq<PublicationId>, k: PublicationId)
    requires RefreshesOk(s) && QueueOk(s) && LogOk(s, log) && k < |s.publications| && MayProceed(s, k)
    ensures forall i :: 0 <= i < |log| ==> GenerationOf(s, log[i]) <= GenerationOf(s, k) == s.generation
  {
    assert GenerationOf(s, k) == s.generation;
    forall i | 0 <= i < |log| ensures GenerationOf(s, log[i]) <= s.generation {
      assert s.publications[log[i]].refresh in s.refreshes;
    }
  }

  /** The second half of a publication, after whatever it had to persist has been persisted. */
  lemma FinishOk(s: Slot, k: PublicationId)
    requires Inv(s) && k < |s.publications| && AllDoneBefore(s, k) && !s.publications[k].phase.Done?
    requires k !in s.updates && (s.publications[k].persists && MayProceed(s, k) ==> k in s.writes)
    requires forall j :: k < j < |s.publications| ==> s.publications[j].phase.Waiting?
    ensures Inv(Finish(s, k))
  {
    var t := SetPhase(s, k, Done);
    PhaseOk(s, k, Done);
    if MayProceed(s, k) && s.publications[k].updates {
      OlderThanCurrent(t, t.updates, k);
      LogGrows(t, t.updates, k);
      SameButUpdates(t, k);
    }
  }

  lemma SameButUpdates(s: Slot, k: PublicationId)
    requires Inv(s) && IsDone(s, k) && (s.publications[k].persists ==> k in s.writes)
    requires LogOk(s, s.updates + [k]) && forall j :: 0 <= j < |s.publications| ==> !s.publications[j].phase.Storing?
    ensures Inv(s.(updates := s.updates + [k]))
  {
    var t := s.(updates := s.updates + [k]);
    forall i | 0 <= i < |s.publications| ensures GenerationOf(t, i) == GenerationOf(s, i) {}
  }

  lemma OnlyWaitingAfter(s: Slot, k: PublicationId)
    requires QueueOk(s) && k < |s.publications| && !s.publications[k].phase.Done?
    ensures forall j :: k < j < |s.publications| ==> s.publications[j].phase.Waiting?
  {
  }

  lemma StartOk(s: Slot, k: PublicationId)
    requires Inv(s) && Enabled(s, Resume(k))
    ensures Inv(Start(s, k))
  {
    hide StoringOk, RefreshesOk;
    ResumesInTurn(s, Resume(k), k);
    OnlyWaitingAfter(s, k);
    assert k !in s.updates;
    if !MayProceed(s, k) {
      PhaseOk(s, k, Done);
    } else if s.publications[k].persists {
      PhaseOk(s, k, Storing);
    } else {
      FinishOk(s, k);
    }
  }

  /** The store mutation has completed; the publication counts as being stored until it goes on. */
  lemma WrittenOk(s: Slot, k: PublicationId)
    requires Inv(s) && k < |s.publications| && s.publications[k].phase.Storing?
    ensures var t := SetPhase(s, k, Done); Inv(t.(writes := t.writes + [k]))
  {
    ResumesInTurn(s, StoreSettles(k, true), k);
    OnlyWaitingAfter(s, k);
    PhaseOk(s, k, Done);
    var t := SetPhase(s, k, Done);
    assert forall i :: 0 <= i < |s.publications| ==> GenerationOf(t, i) == GenerationOf(s, i);
    LogGrows(t, t.writes, k);
    SameButWrites(t, k);
  }

  lemma SameButWrites(s: Slot, k: PublicationId)
    requires Inv(s) && LogOk(s, s.writes + [k])
    requires forall j :: 0 <= j < |s.publications| ==> !s.publications[j].phase.Storing?
    ensures Inv(s.(writes := s.writes + [k]))
  {
    var t := s.(writes := s.writes + [k]);
    forall i | 0 <= i < |s.publications| ensures GenerationOf(t, i) == GenerationOf(s, i) {}
  }

  lemma StoreDoneOk(s: Slot, k: PublicationId, ok: bool)
    requires Inv(s) && Enabled(s, StoreSettles(k, ok))
    ensures Inv(StoreDone(s, k, ok))
  {
    hide RefreshesOk;
    ResumesInTurn(s, StoreSettles(k, ok), k);
    OnlyWaitingAfter(s, k);
    PhaseOk(s, k, Done);
    if ok {
      WrittenOk(s, k);
      var t := SetPhase(s, k, Done);
      var u := t.(writes := t.writes + [k]);
      if MayProceed(s, k) && s.publications[k].updates {
        assert k !in s.updates;
        assert MayProceed(u, k);
        OlderThanCurrent(u, u.updates, k);
        LogGrows(u, u.updates, k);
        SameButUpdates(u, k);
      }
    }
  }

  lemma ChainEndsOk(s: Slot, k: PublicationId)
    requires Inv(s) && IsDone(s, k)
    ensures Inv(Apply(s, ChainEnds(k)))
  {
    var t := Apply(s, ChainEnds(k));
    forall i | 0 <= i < |s.publications| ensures GenerationOf(t, i) == GenerationOf(s, i) {}
  }

  lemma StepKeepsInv(s: Slot, e: Event)
    requires Inv(s) && Enabled(s, e)
    ensures Inv(Apply(s, e))
  {
    hide Inv, Begin, Clear, Join, Start, StoreDone, Abort, Supersede;
    match e
    case SetProvider => SupersedeOk(s, true);
    case DeleteProvider => SupersedeOk(s, false);
    case ClearProviders => ClearOk(s);
    case BeginRefresh(r) => BeginOk(s, r);
    case EndRefresh(r) => EndOk(s, r);
    case CallerAborts(r) => AbortOk(s, r);
    case Publish(r, persists, updates) => JoinOk(s, r, persists, updates);
    case Resume(k) => StartOk(s, k);
    case StoreSettles(k, ok) => StoreDoneOk(s, k, ok);
    case ChainEnds(k) => ChainEndsOk(s, k);
  }

  lemma EndOk(s: Slot, r: RefreshId)
    requires Inv(s)
    ensures Inv(s.(controller := None))
  {
    hide QueueOk, LogOk, StoringOk, UpdatesOk;
    SameQueueOk(s, s.(controller := None));
  }

  lemma {:induction false} ExecutionKeepsInv(states: seq<Slot>, events: seq<Event>, n: nat)
    requires Execution(states, events) && n <= |events|
    ensures Inv(states[n])
  {
    hide Apply, Enabled;
    if n > 0 {
      ExecutionKeepsInv(states, events, n - 1);
      StepKeepsInv(states[n - 1], events[n - 1]);
    }
  }

  /** At most one publication is being stored, and it is the oldest that has not finished. */
  lemma OneAtATime(states: seq<Slot>, events: seq<Event>, n: nat, j: PublicationId, k: PublicationId)
    requires Execution(states, events) && n <= |events| && j < k < |states[n].publications|
    requires !states[n].publications[k].phase.Waiting?
    ensures states[n].publications[j].phase.Done?
  {
    ExecutionKeepsInv(states, events, n);
  }

  /** The generations of completed store writes, and those of catalog updates, never decrease. */
  lemma GenerationsNeverDecrease(states: seq<Slot>, events: seq<Event>, n: nat, i: nat, j: nat)
    requires Execution(states, events) && n <= |events| && i < j
    ensures j < |states[n].writes| ==>
            GenerationOf(states[n], states[n].writes[i]) <= GenerationOf(states[n], states[n].writes[j])
    ensures j < |states[n].updates| ==>
            GenerationOf(states[n], states[n].updates[i]) <= GenerationOf(states[n], states[n].updates[j])
  {
    ExecutionKeepsInv(states, events, n);
  }

  /** The refresh belongs to an older generation than the current one. */
  predicate Superseded(s: Slot, r: RefreshId) {
    r in s.refreshes && s.refreshes[r].generation < s.generation
  }

  /** Setting, deleting or clearing supersedes every refresh begun before, whether or not it is still in flight. */
  lemma RegistrySupersedes(s: Slot, e: Event, r: RefreshId)
    requires Inv(s) && r in s.refreshes && (e.SetProvider? || e.DeleteProvider? || e.ClearProviders?)
    ensures Superseded(Apply(s, e), r)
  {
    hide QueueOk, LogOk, StoringOk, UpdatesOk;
  }

  /** A publication keeps the refresh it came from. */
  ghost predicate SameOwners(s: Slot, s': Slot) {
    && |s.publications| <= |s'.publications|
    && forall k :: 0 <= k < |s.publications| ==> s'.publications[k].refresh == s.publications[k].refresh
  }

  /** A step neither revives a superseded refresh nor runs an update of it. */
  lemma SupersededStep(s: Slot, e: Event, r: RefreshId)
    requires Inv(s) && Enabled(s, e) && Superseded(s, r)
    ensures Superseded(Apply(s, e), r)
    ensures SameOwners(s, Apply(s, e)) && s.updates <= Apply(s, e).updates
    ensures forall i :: |s.updates| <= i < |Apply(s, e).updates| ==>
              Apply(s, e).updates[i] < |s.publications| && s.publications[Apply(s, e).updates[i]].refresh != r
  {
    hide Inv;
  }

  lemma {:induction false} StaysSuperseded(states: seq<Slot>, events: seq<Event>, i: nat, n: nat, r: RefreshId)
    requires Execution(states, events) && i <= n <= |events| && Superseded(states[i], r)
    ensures Superseded(states[n], r) && states[i].updates <= states[n].updates
    ensures forall u :: |states[i].updates| <= u < |states[n].updates| ==>
              states[n].updates[u] < |states[n].publications|
                  && states[n].publications[states[n].updates[u]].refresh != r
  {
    hide Apply, Enabled, Inv, Superseded;
    if i < n {
      var (s, e) := (states[n - 1], events[n - 1]);
      StaysSuperseded(states, events, i, n - 1, r);
      ExecutionKeepsInv(states, events, n - 1);
      SupersededStep(s, e, r);
      assert states[n] == Apply(s, e);
    }
  }

  /** After the provider was set, deleted or cleared, no refresh begun before ever updates the catalog. */
  lemma NoUpdateFromEarlierRefresh(states: seq<Slot>, events: seq<Event>, i: nat, n: nat, r: RefreshId, u: nat)
    requires Execution(states, events) && i < n <= |events| && r in states[i].refreshes
    requires events[i].SetProvider? || events[i].DeleteProvider? || events[i].ClearProviders?
    requires |states[i].updates| <= u < |states[n].updates|
    ensures var k := states[n].updates[u]; k < |states[n].publications| && states[n].publications[k].refresh != r
  {
    hide Inv, Superseded;
    ExecutionKeepsInv(states, events, i);
    RegistrySupersedes(states[i], events[i], r);
    StaysSuperseded(states, events, i + 1, n, r);
  }

  /** An update runs in the step that follows the store mutation of the same publication: nothing is written between. */
  lemma UpdateFollowsItsWrite(s: Slot, e: Event)
    requires Inv(s) && Enabled(s, e) && |s.updates| < |Apply(s, e).updates|
    ensures var s' := Apply(s, e);
            var k := s'.updates[|s'.updates| - 1];
            && k < |s'.publications| && GenerationOf(s', k) == s'.generation
            && (s'.publications[k].persists ==> s'.writes == s.writes + [k])
  {
    hide QueueOk, LogOk, StoringOk, RefreshesOk;
  }
}
