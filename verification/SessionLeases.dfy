/**
 * The lease tables of the client and the handles that refer to them, updated in place. Every operation
 * is proved to change the tables of its session as one slot of the lease protocol changes, and no others.
 */
module SessionLeases {
  import opened Common
  import opened LeaseProtocol

  type SessionId = string

  /** The part of a slot that the tables hold. */
  datatype Tables = Tables(count: int, exclusive: Option<Token>, generation: nat, cleanupRequired: bool)

  function TablesOf(s: Slot): Tables {
    Tables(s.count, s.exclusive, s.generation, s.cleanupRequired)
  }

  /** What a removal, and what a disconnect, leaves of the tables of one session. */
  function Invalidated(t: Tables): Tables {
    Tables(0, None, t.generation + 1, false)
  }

  function AfterDisconnect(t: Tables): Tables {
    if t.count == 0 then t.(cleanupRequired := false) else Invalidated(t)
  }

  lemma InvalidationOfTables(s: Slot)
    ensures TablesOf(InvalidateLeases(s)) == Invalidated(TablesOf(s))
    ensures TablesOf(LoseConnection(s)) == AfterDisconnect(TablesOf(s))
  {
  }

  class LeaseTables {
    var counts: map<SessionId, int>
    var exclusives: map<SessionId, Token>
    var generations: map<SessionId, nat>
    var cleanupRequired: set<SessionId>

    ghost predicate Valid()
      reads this
    {
      forall id <- counts :: counts[id] > 0
    }

    ghost function At(id: SessionId): Tables
      reads this
    {
      Tables(
        if id in counts then counts[id] else 0,
        if id in exclusives then Some(exclusives[id]) else None,
        if id in generations then generations[id] else 0,
        id in cleanupRequired)
    }

    constructor ()
      ensures Valid() && forall id :: At(id) == TablesOf(INITIAL)
    {
      counts, exclusives, generations, cleanupRequired := map[], map[], map[], {};
    }

    /** The ownership rules are checked before any request is sent. */
    method ReserveLease(id: SessionId, token: Token, mode: Mode, ghost slot: Slot) returns (ok: bool)
      requires Valid() && At(id) == TablesOf(slot)
      requires slot.count >= 0
      modifies this
      ensures Valid() && ok == Reserve(slot, token, mode).Some?
      ensures At(id) == TablesOf(if ok then Reserve(slot, token, mode).value else slot)
      ensures forall other :: other != id ==> At(other) == old(At(other))
    {
      var count := if id in counts then counts[id] else 0;
      if (mode.Exclusive? && count > 0) || (mode.Shared? && id in exclusives) {
        return false;
      }
      counts := counts[id := count + 1];
      if mode.Exclusive? {
        exclusives := exclusives[id := token];
      }
      return true;
    }

    method GiveBack(id: SessionId, token: Token, ghost slot: Slot)
      requires Valid() && At(id) == TablesOf(slot)
      modifies this
      ensures Valid() && At(id) == TablesOf(ReleaseLease(slot, token))
      ensures forall other :: other != id ==> At(other) == old(At(other))
    {
      var count := if id in counts then counts[id] else 0;
      counts := if count <= 1 then counts - {id} else counts[id := count - 1];
      if id in exclusives && exclusives[id] == token {
        exclusives := exclusives - {id};
      }
    }

    method RequireCleanup(id: SessionId)
      requires Valid()
      modifies this`cleanupRequired
      ensures Valid() && At(id) == old(At(id)).(cleanupRequired := true)
      ensures forall other :: other != id ==> At(other) == old(At(other))
    {
      cleanupRequired := cleanupRequired + {id};
    }

    method Invalidate(id: SessionId)
      requires Valid()
      modifies this
      ensures Valid() && At(id) == Invalidated(old(At(id)))
      ensures forall other :: other != id ==> At(other) == old(At(other))
      ensures counts.Keys == old(counts.Keys) - {id}
    {
      counts, exclusives, cleanupRequired := counts - {id}, exclusives - {id}, cleanupRequired - {id};
      var generation := if id in generations then generations[id] else 0;
      generations := generations[id := generation + 1];
    }

    method InvalidateCounted()
      requires Valid()
      modifies this
      ensures Valid()
      ensures forall id {:trigger At(id)} ::
                At(id) == if id in old(counts) then Invalidated(old(At(id))) else old(At(id))
    {
      while |counts| > 0
        invariant Valid() && counts.Keys <= old(counts.Keys)
        invariant forall id {:trigger At(id)} ::
          At(id) == if id in old(counts) && id !in counts then Invalidated(old(At(id))) else old(At(id))
        decreases |counts|
      {
        assert counts != map[];
        var id :| id in counts;
        ghost var keys := counts.Keys;
        Invalidate(id);
        assert |counts.Keys| == |keys| - 1;
      }
    }

    /** Only sessions with a count are invalidated; a cleanup that is due is forgotten for all. */
    method InvalidateAll()
      requires Valid()
      modifies this
      ensures Valid() && forall id :: At(id) == AfterDisconnect(old(At(id)))
    {
      assert forall id {:trigger At(id)} :: id in counts <==> At(id).count != 0;
      InvalidateCounted();
      label Counted:
      cleanupRequired := {};
      assert forall id {:trigger At(id)} :: At(id) == old@Counted(At(id)).(cleanupRequired := false);
    }
  }

  datatype LeaseState = LeaseActive | LeaseReleasing | LeaseReleased | LeaseInvalidated
  datatype ReleaseOutcome = AlreadyOver | AlreadyReleasing | NotAttached | DetachFirst | GivenBack

  /** The handle a caller holds: it remembers the generation in which it was created. */
  class SessionLease {
    const id: SessionId
    const token: Token
    const generation: nat
    var state: LeaseState

    /** The state of the handle is the phase the protocol gives it, read lazily where the handle is stale. */
    ghost predicate Shows(slot: Slot)
      reads this
    {
      && token in slot.handles && slot.handles[token].generation == generation
      && match state
         case LeaseActive => slot.handles[token].phase.Active?
         case LeaseReleasing => slot.handles[token].phase.Releasing?
         case LeaseReleased => slot.handles[token].phase.Released?
         case LeaseInvalidated => !Live(slot, token)
    }

    constructor (id: SessionId, token: Token, mode: Mode, tables: LeaseTables, ghost slot: Slot)
      requires tables.At(id) == TablesOf(slot)
      ensures this.id == id && this.token == token && Shows(CreateLease(slot, token, mode))
    {
      this.id, this.token, state := id, token, LeaseActive;
      generation := if id in tables.generations then tables.generations[id] else 0;
    }

    method RefreshState(tables: LeaseTables, ghost slot: Slot)
      requires Shows(slot) && tables.At(id) == TablesOf(slot)
      modifies this
      ensures Shows(slot)
      ensures Live(slot, token) <==> state.LeaseActive? || state.LeaseReleasing?
    {
      var current := if id in tables.generations then tables.generations[id] else 0;
      if (state.LeaseActive? || state.LeaseReleasing?) && current != generation {
        state := LeaseInvalidated;
      }
    }

    method Active(tables: LeaseTables, attached: bool, ghost slot: Slot) returns (active: bool)
      requires Shows(slot) && tables.At(id) == TablesOf(slot) && attached == slot.attached
      modifies this
      ensures Shows(slot) && active == IsActive(slot, token)
    {
      RefreshState(tables, slot);
      active := state.LeaseActive? && attached;
    }

    /** The first half of a release; DetachFirst means that request number |slot.requests| was sent for it. */
    method BeginRelease(tables: LeaseTables, attached: bool, connected: bool, relinquish: bool, ghost slot: Slot)
      returns (outcome: ReleaseOutcome)
      requires tables.Valid() && Shows(slot) && tables.At(id) == TablesOf(slot)
      requires attached == slot.attached && connected == slot.connected
      modifies this, tables
      ensures tables.Valid() && Shows(ReleaseHandle(slot, token, relinquish))
      ensures tables.At(id) == TablesOf(ReleaseHandle(slot, token, relinquish))
      ensures forall other :: other != id ==> tables.At(other) == old(tables.At(other))
      ensures outcome.DetachFirst? <==> IsActive(slot, token) && connected && slot.count <= 1
      ensures outcome.GivenBack? <==> IsActive(slot, token) && connected && slot.count > 1
    {
      RefreshState(tables, slot);
      if state.LeaseReleased? || state.LeaseInvalidated? {
        return AlreadyOver;
      }
      if state.LeaseReleasing? {
        return AlreadyReleasing;
      }
      if !connected || !attached {
        return NotAttached;
      }
      var count := if id in tables.counts then tables.counts[id] else 0;
      if count <= 1 {
        state := LeaseReleasing;
        return DetachFirst;
      }
      tables.GiveBack(id, token, slot);
      state := LeaseReleased;
      return GivenBack;
    }

    /** The second half, when the detach request has settled. */
    method EndRelease(tables: LeaseTables, ok: bool, relinquish: bool, ghost slot: Slot)
      requires tables.Valid() && tables.At(id) == TablesOf(slot)
      requires Shows(slot) && slot.handles[token].phase.Releasing? && Settled(slot, slot.handles[token].phase.request)
      requires relinquish == slot.handles[token].phase.relinquish
      requires ok == slot.requests[slot.handles[token].phase.request].settled.value
      modifies this, tables
      ensures tables.Valid() && Shows(ContinueRelease(slot, token))
      ensures tables.At(id) == TablesOf(ContinueRelease(slot, token))
      ensures forall other :: other != id ==> tables.At(other) == old(tables.At(other))
    {
      if ok {
        tables.GiveBack(id, token, slot);
        state := LeaseReleased;
        return;
      }
      RefreshState(tables, slot);
      if state.LeaseInvalidated? {
        return;
      }
      if relinquish {
        tables.GiveBack(id, token, slot);
        tables.RequireCleanup(id);
        state := LeaseReleased;
      } else {
        state := LeaseActive;
      }
    }
  }
}
