/** What every run keeps of the leases of one session. */
module LeaseSafety {
  import opened Common
  import opened LeaseProtocol

  /** The mode in which the token holds a reservation: as an acquisition in flight or as a handle still alive. */
  function Holder(s: Slot, t: Token): Option<Mode> {
    if t in s.acquisitions then Some(s.acquisitions[t].mode)
    else if Live(s, t) then Some(s.handles[t].mode)
    else None
  }

  ghost function Holders(s: Slot): (h: map<Token, Mode>)
    ensures forall t :: t in h <==> Holder(s, t).Some?
    ensures forall t :: t in h ==> h[t] == Holder(s, t).value
  {
    map t | t in s.acquisitions.Keys + s.handles.Keys && Holder(s, t).Some? :: Holder(s, t).value
  }

  /** Maps with the same holders are the same map. */
  lemma SameMap(s: Slot, h: map<Token, Mode>)
    requires forall t :: Holder(s, t) == if t in h then Some(h[t]) else None
    ensures Holders(s) == h
  {
    hide Holders, TableOk;
  }

  /** The count is the number of holders, and an exclusive holder is alone. */
  ghost predicate TableOk(count: int, exclusive: Option<Token>, holders: map<Token, Mode>) {
    && count == |holders|
    && match exclusive
       case Some(t) => holders == map[t := Exclusive]
       case None => forall t <- holders :: holders[t].Shared?
  }

  lemma TableInsert(count: int, exclusive: Option<Token>, holders: map<Token, Mode>, t: Token, mode: Mode)
    requires TableOk(count, exclusive, holders) && t !in holders
    requires if mode.Exclusive? then count <= 0 else exclusive.None?
    ensures TableOk(count + 1, if mode.Exclusive? then Some(t) else exclusive, holders[t := mode])
  {
    if mode.Exclusive? {
      assert holders == map[];
    }
  }

  lemma TableRemove(count: int, exclusive: Option<Token>, holders: map<Token, Mode>, t: Token)
    requires TableOk(count, exclusive, holders) && t in holders
    ensures TableOk(if count <= 1 then 0 else count - 1,
                    if exclusive == Some(t) then None else exclusive, holders - {t})
  {
    assert (holders - {t}).Keys == holders.Keys - {t};
    assert |(holders - {t}).Keys| == |holders.Keys| - 1;
    assert exclusive.Some? ==> t == exclusive.value;
  }

  ghost predicate TokensOk(s: Slot) {
    && s.acquisitions.Keys !! s.handles.Keys
    && (forall t <- s.acquisitions :: t < s.nextToken)
    && (forall t <- s.handles :: t < s.nextToken && s.handles[t].generation <= s.generation)
    && (forall t <- s.handles :: s.handles[t].phase.Releasing? ==>
          Live(s, t) || Rejected(s, s.handles[t].phase.request))
  }

  /** The tables agree with the holders, and no release that may still give a lease back is of a dead handle. */
  ghost predicate Right(s: Slot) {
    TokensOk(s) && TableOk(s.count, s.exclusive, Holders(s))
  }

  /** The token has been counted but is not yet, or no longer, in a table. */
  ghost predicate Reserved(s: Slot, token: Token, mode: Mode) {
    && TokensOk(s) && token !in s.acquisitions && token !in s.handles && token < s.nextToken
    && TableOk(s.count, s.exclusive, Holders(s)[token := mode])
  }

  /** Changes that leave the lease tables alone. */
  ghost predicate SameLeases(s: Slot, s': Slot) {
    && s'.count == s.count && s'.exclusive == s.exclusive && s'.generation == s.generation
    && s'.acquisitions == s.acquisitions && s'.handles == s.handles && s'.nextToken == s.nextToken
    && forall q :: Rejected(s, q) ==> Rejected(s', q)
  }

  lemma SameHolders(s: Slot, s': Slot)
    requires SameLeases(s, s')
    ensures Holders(s') == Holders(s)
  {
    hide Holders, TableOk;
    forall t ensures Holder(s', t) == Holder(s, t) {}
    SameMap(s', Holders(s));
  }

  lemma SameReserved(s: Slot, s': Slot, token: Token, mode: Mode)
    requires SameLeases(s, s') && Reserved(s, token, mode)
    ensures Reserved(s', token, mode)
  {
    SameHolders(s, s');
  }

  lemma ReserveOk(s: Slot, mode: Mode)
    requires Right(s)
    ensures var r := Reserve(s.(nextToken := s.nextToken + 1), s.nextToken, mode);
            if r.Some? then Reserved(r.value, s.nextToken, mode) else Right(s.(nextToken := s.nextToken + 1))
  {
    hide Holders, TableOk;
    var token := s.nextToken;
    var next := s.(nextToken := token + 1);
    var r := Reserve(next, token, mode);
    SameMap(next, Holders(s));
    if r.Some? {
      SameMap(r.value, Holders(s));
      TableInsert(s.count, s.exclusive, Holders(s), token, mode);
    }
  }

  lemma WaitOk(s: Slot, token: Token, mode: Mode, stage: Stage)
    requires Reserved(s, token, mode)
    ensures Right(Wait(s, token, mode, stage))
  {
    hide Holders, TableOk;
    SameMap(Wait(s, token, mode, stage), Holders(s)[token := mode]);
  }

  lemma CreateOk(s: Slot, token: Token, mode: Mode)
    requires Reserved(s, token, mode)
    ensures Right(CreateLease(s, token, mode))
  {
    hide Holders, TableOk;
    SameMap(CreateLease(s, token, mode), Holders(s)[token := mode]);
  }

  lemma FailOk(s: Slot, token: Token, mode: Mode)
    requires Reserved(s, token, mode)
    ensures Right(ReleaseLease(s, token))
  {
    hide Holders, TableOk;
    assert Holders(s)[token := mode] - {token} == Holders(s);
    var s' := ReleaseLease(s, token);
    assert forall t :: Holder(s', t) == Holder(s, t);
    SameMap(s', Holders(s));
    TableRemove(s.count, s.exclusive, Holders(s)[token := mode], token);
  }

  /** Taking an acquisition out of its table leaves its token reserved. */
  lemma TakeOut(s: Slot, token: Token)
    requires Right(s) && token in s.acquisitions
    ensures Reserved(s.(acquisitions := s.acquisitions - {token}), token, s.acquisitions[token].mode)
  {
    hide Holders, TableOk;
    var s' := s.(acquisitions := s.acquisitions - {token});
    SameMap(s', Holders(s) - {token});
    assert Holders(s')[token := s.acquisitions[token].mode] == Holders(s);
  }

  lemma AfterReconciliationOk(s: Slot, token: Token, mode: Mode, reconciled: bool)
    requires Reserved(s, token, mode)
    ensures Right(AfterReconciliation(s, token, mode, reconciled))
  {
    if !reconciled && s.attached {
      CreateOk(s, token, mode);
    } else if s.attachment.Some? {
      WaitOk(s, token, mode, AwaitAttachment(s.attachment.value));
    } else {
      var q := |s.requests|;
      var t := Send(s, AttachCommand).(attachment := Some(q));
      SameReserved(s, t, token, mode);
      WaitOk(t, token, mode, AwaitAttachment(q));
    }
  }

  lemma AfterDetachmentOk(s: Slot, token: Token, mode: Mode)
    requires Reserved(s, token, mode)
    ensures Right(AfterDetachment(s, token, mode))
  {
    if !s.cleanupRequired {
      AfterReconciliationOk(s, token, mode, false);
    } else if s.reconciliation.Some? {
      WaitOk(s, token, mode, AwaitReconciliation(s.reconciliation.value));
    } else {
      var q := |s.requests|;
      var t := Send(s, DetachCommand).(reconciliation := if s.connected then Some(q) else None);
      SameReserved(s, t, token, mode);
      WaitOk(t, token, mode, AwaitReconciliation(q));
    }
  }

  lemma AcquireOk(s: Slot, mode: Mode)
    requires Right(s)
    ensures Right(AcquireSession(s, mode))
  {
    hide Holders, TableOk, TokensOk, AfterDetachment, Wait, Reserve;
    var token := s.nextToken;
    ReserveOk(s, mode);
    var r := Reserve(s.(nextToken := token + 1), token, mode);
    if r.Some? {
      if r.value.detachment.Some? {
        WaitOk(r.value, token, mode, AwaitDetachment(r.value.detachment.value));
      } else {
        AfterDetachmentOk(r.value, token, mode);
      }
    }
  }

  lemma ContinueAcquireOk(s: Slot, token: Token)
    requires Right(s) && token in s.acquisitions && Settled(s, s.acquisitions[token].stage.request)
    ensures Right(ContinueAcquire(s, token))
  {
    hide Holders, TableOk, TokensOk, AfterDetachment, AfterReconciliation, CreateLease, ReleaseLease;
    var a := s.acquisitions[token];
    var ok := s.requests[a.stage.request].settled.value;
    var t := s.(acquisitions := s.acquisitions - {token});
    TakeOut(s, token);
    match a.stage
    case AwaitDetachment(_) => AfterDetachmentOk(t, token, a.mode);
    case AwaitReconciliation(_) =>
      if ok {
        AfterReconciliationOk(t, token, a.mode, true);
      } else {
        FailOk(t, token, a.mode);
      }
    case AwaitAttachment(q) =>
      var u := if s.attachment == Some(q) then t.(attachment := None) else t;
      SameReserved(t, u, token, a.mode);
      if ok {
        CreateOk(u, token, a.mode);
      } else {
        FailOk(u, token, a.mode);
      }
  }

  lemma ReleasedTokens(s: Slot, token: Token)
    requires TokensOk(s) && token in s.handles
    ensures TokensOk(SetPhase(ReleaseLease(s, token), token, Released))
  {
  }

  lemma ReleasedHolders(s: Slot, token: Token)
    requires token in s.handles && token !in s.acquisitions
    ensures Holders(SetPhase(ReleaseLease(s, token), token, Released)) == Holders(s) - {token}
  {
    hide Holders;
    var s' := SetPhase(ReleaseLease(s, token), token, Released);
    forall t ensures Holder(s', t) == if t == token then None else Holder(s, t) {}
    SameMap(s', Holders(s) - {token});
  }

  /** Giving up a live handle. */
  lemma GiveUpOk(s: Slot, token: Token)
    requires Right(s) && Live(s, token)
    ensures Right(SetPhase(ReleaseLease(s, token), token, Released))
  {
    assert token !in s.acquisitions && Holder(s, token).Some?;
    hide Holders, TableOk, TokensOk;
    ReleasedTokens(s, token);
    ReleasedHolders(s, token);
    TableRemove(s.count, s.exclusive, Holders(s), token);
  }

  /** A live handle that stays live. */
  lemma RephaseOk(s: Slot, token: Token, phase: Phase)
    requires Right(s) && Live(s, token) && !phase.Released?
    ensures Right(SetPhase(s, token, phase))
  {
    hide Holders, TableOk;
    SameMap(SetPhase(s, token, phase), Holders(s));
  }

  lemma SameRight(s: Slot, s': Slot)
    requires SameLeases(s, s') && Right(s)
    ensures Right(s')
  {
    SameHolders(s, s');
  }

  lemma ReleaseOk(s: Slot, token: Token, relinquish: bool)
    requires Right(s)
    ensures Right(ReleaseHandle(s, token, relinquish))
  {
    hide Holders, TableOk, TokensOk, ReleaseLease, SetPhase;
    if IsActive(s, token) && s.connected {
      if s.count <= 1 {
        var q := |s.requests|;
        var t := Send(s, DetachCommand).(detachment := Some(q));
        SameRight(s, t);
        RephaseOk(t, token, Releasing(q, relinquish));
      } else {
        GiveUpOk(s, token);
      }
    }
  }

  lemma ContinueReleaseOk(s: Slot, token: Token)
    requires Right(s) && token in s.handles && s.handles[token].phase.Releasing?
    requires Settled(s, s.handles[token].phase.request)
    ensures Right(ContinueRelease(s, token))
  {
    hide Holders, TableOk;
    var phase := s.handles[token].phase;
    var t := if s.detachment == Some(phase.request) then s.(detachment := None) else s;
    SameRight(s, t);
    if s.requests[phase.request].settled.value {
      GiveUpOk(t, token);
    } else if !Live(s, token) {
      DeadReleaseOk(t, token);
    } else if phase.relinquish {
      GiveUpOk(t, token);
      SameRight(ContinueRelease(s, token).(cleanupRequired := s.cleanupRequired), ContinueRelease(s, token));
    } else {
      RephaseOk(t, token, Active);
    }
  }

  /** The end of a release that was rejected and whose handle is no longer alive. */
  lemma DeadReleaseOk(s: Slot, token: Token)
    requires Right(s) && token in s.handles && !Live(s, token)
    ensures Right(SetPhase(s, token, Released))
  {
    hide Holders, TableOk;
    SameMap(SetPhase(s, token, Released), Holders(s));
  }

  lemma ContinueCreateOk(s: Slot)
    requires Right(s) && s.creations > 0
    ensures Right(ContinueCreate(s))
  {
    hide Holders, TableOk, TokensOk, CreateLease, Reserve;
    var token := s.nextToken;
    var start := s.(creations := s.creations - 1);
    SameRight(s, start);
    ReserveOk(start, Exclusive);
    var r := Reserve(start.(nextToken := token + 1), token, Exclusive);
    if r.Some? {
      CreateOk(r.value, token, Exclusive);
    }
  }

  /** What a removal may find in flight: releases that were rejected, and nothing else. */
  ghost predicate CalmRemoval(s: Slot) {
    && s.acquisitions == map[]
    && forall t <- s.handles :: s.handles[t].phase.Releasing? ==> Rejected(s, s.handles[t].phase.request)
  }

  /** A removal empties the tables: they still agree with the holders exactly when what it finds in flight is calm. */
  lemma RemovedOk(s: Slot)
    requires Right(s)
    ensures Right(InvalidateLeases(s).(attached := false)) <==> CalmRemoval(s)
  {
    hide Holders;
    var s' := InvalidateLeases(s).(attached := false);
    if CalmRemoval(s) {
      SameMap(s', map[]);
    } else if s.acquisitions != map[] {
      var t :| t in s.acquisitions;
      assert Holder(s', t).Some?;
    } else {
      var t :| t in s.handles && s.handles[t].phase.Releasing? && !Rejected(s, s.handles[t].phase.request);
      assert !Live(s', t);
    }
  }

  lemma SettleKeepsLeases(s: Slot, q: RequestId, ok: bool, attached: bool)
    requires q < |s.requests| && s.requests[q].settled.None?
    ensures SameLeases(s, Settle(s, q, ok, attached))
  {
  }

  /** Steps that neither lose nor regain the connection keep the tables right, if removals are calm. */
  lemma RightStep(s: Slot, e: Event)
    requires Right(s) && Enabled(s, e) && !e.Disconnect? && !e.Reconnect? && (e.SessionRemoved? ==> CalmRemoval(s))
    ensures Right(Apply(s, e))
  {
    hide Right, AcquireSession, ContinueAcquire, ContinueCreate, ReleaseHandle, ContinueRelease, InvalidateLeases,
         Settle;
    match e
    case Acquire(mode) => AcquireOk(s, mode);
    case ResumeAcquire(t) => ContinueAcquireOk(s, t);
    case Created(_) => SameRight(s, Apply(s, e));
    case ResumeCreate => ContinueCreateOk(s);
    case Release(t, relinquish) => ReleaseOk(s, t, relinquish);
    case ResumeRelease(t) => ContinueReleaseOk(s, t);
    case Respond(q, ok, attached) =>
      SettleKeepsLeases(s, q, ok, attached);
      SameRight(s, Apply(s, e));
    case SnapshotEvent(_) => SameRight(s, Apply(s, e));
    case SessionRemoved => RemovedOk(s);
  }
}
