/**
 * What every run keeps of the leases of one session. While the client is connected the tables are exact;
 * after a disconnect they still are, or what is in flight comes to nothing before the next connection.
 */
module LeaseTheorems {
  import opened Common
  import opened LeaseProtocol
  import opened LeaseSafety

  predicate IsRequest(s: Slot, q: RequestId) {
    q < |s.requests|
  }

  /** An acquisition that waits for the attach. */
  predicate WaitsFor(s: Slot, t: Token, q: RequestId) {
    t in s.acquisitions && s.acquisitions[t].stage == AwaitAttachment(q)
  }

  ghost predicate RequestsOk(s: Slot) {
    && (s.attachment.Some? ==> IsRequest(s, s.attachment.value) && exists t :: WaitsFor(s, t, s.attachment.value))
    && (s.detachment.Some? ==> IsRequest(s, s.detachment.value))
    && (s.reconciliation.Some? ==> IsRequest(s, s.reconciliation.value))
  }

  ghost predicate AcquisitionOk(s: Slot, t: Token) {
    t in s.acquisitions ==> t < s.nextToken && t !in s.handles && IsRequest(s, s.acquisitions[t].stage.request)
  }

  ghost predicate HandleOk(s: Slot, t: Token) {
    t in s.handles ==>
      && t < s.nextToken && s.handles[t].generation <= s.generation
      && (s.handles[t].phase.Releasing? ==> IsRequest(s, s.handles[t].phase.request))
  }

  /** What is in flight waits for a request that was sent, and a running attach has an acquisition that waits for it. */
  ghost predicate InFlightOk(s: Slot) {
    RequestsOk(s) && (forall t :: AcquisitionOk(s, t)) && (forall t :: HandleOk(s, t))
  }

  // Every event keeps what is in flight in order

  lemma Waits(s: Slot, token: Token, mode: Mode, stage: Stage)
    requires InFlightOk(s) && token < s.nextToken && token !in s.handles && IsRequest(s, stage.request)
    requires token !in s.acquisitions
    ensures InFlightOk(Wait(s, token, mode, stage))
  {
    var s' := Wait(s, token, mode, stage);
    forall t ensures AcquisitionOk(s', t) { assert AcquisitionOk(s, t); }
    forall t ensures HandleOk(s', t) { assert HandleOk(s, t); }
    if s.attachment.Some? {
      var t :| WaitsFor(s, t, s.attachment.value);
      assert WaitsFor(s', t, s.attachment.value);
    }
  }

  /** A request is sent, and an acquisition waits for it. */
  lemma SendsAndWaits(s: Slot, token: Token, mode: Mode, attach: bool)
    requires InFlightOk(s) && token < s.nextToken && token !in s.handles && token !in s.acquisitions
    ensures var q := |s.requests|;
            && (attach && s.attachment.None? ==> InFlightOk(
                  Wait(Send(s, AttachCommand).(attachment := Some(q)), token, mode, AwaitAttachment(q))))
            && (!attach ==> InFlightOk(
                  Wait(Send(s, DetachCommand).(reconciliation := if s.connected then Some(q) else None), token, mode,
                       AwaitReconciliation(q))))
  {
    var q := |s.requests|;
    var a := Wait(Send(s, AttachCommand).(attachment := Some(q)), token, mode, AwaitAttachment(q));
    var d := Wait(Send(s, DetachCommand).(reconciliation := if s.connected then Some(q) else None), token, mode,
                  AwaitReconciliation(q));
    forall t ensures AcquisitionOk(a, t) && AcquisitionOk(d, t) { assert AcquisitionOk(s, t); }
    forall t ensures HandleOk(a, t) && HandleOk(d, t) { assert HandleOk(s, t); }
    assert WaitsFor(a, token, q);
    if s.attachment.Some? {
      var t :| WaitsFor(s, t, s.attachment.value);
      assert WaitsFor(d, t, s.attachment.value);
    }
  }

  lemma Creates(s: Slot, token: Token, mode: Mode)
    requires InFlightOk(s) && token < s.nextToken && token !in s.acquisitions
    ensures InFlightOk(CreateLease(s, token, mode))
  {
    var s' := CreateLease(s, token, mode);
    forall t ensures AcquisitionOk(s', t) { assert AcquisitionOk(s, t); }
    forall t ensures HandleOk(s', t) { assert HandleOk(s, t); }
    if s.attachment.Some? {
      var t :| WaitsFor(s, t, s.attachment.value);
      assert WaitsFor(s', t, s.attachment.value);
    }
  }

  /** Changes that touch neither what is in flight nor the maps of requests, and lose no request. */
  ghost predicate SameFlight(s: Slot, s': Slot) {
    && s'.acquisitions == s.acquisitions && s'.handles == s.handles && s.nextToken <= s'.nextToken
    && s.generation <= s'.generation && |s.requests| <= |s'.requests|
    && s'.attachment == s.attachment
    && (s'.detachment == s.detachment || s'.detachment == None)
    && (s'.reconciliation == s.reconciliation || s'.reconciliation == None)
  }

  lemma SameFlightOk(s: Slot, s': Slot)
    requires InFlightOk(s) && SameFlight(s, s')
    ensures InFlightOk(s')
  {
    forall t ensures AcquisitionOk(s', t) { assert AcquisitionOk(s, t); }
    forall t ensures HandleOk(s', t) { assert HandleOk(s, t); }
    if s.attachment.Some? {
      var t :| WaitsFor(s, t, s.attachment.value);
      assert WaitsFor(s', t, s.attachment.value);
    }
  }

  lemma AttachesInFlight(s: Slot, token: Token, mode: Mode, reconciled: bool)
    requires InFlightOk(s) && token < s.nextToken && token !in s.handles && token !in s.acquisitions
    ensures InFlightOk(AfterReconciliation(s, token, mode, reconciled))
  {
    hide InFlightOk;
    if !reconciled && s.attached {
      Creates(s, token, mode);
    } else if s.attachment.Some? {
      AttachmentSent(s);
      Waits(s, token, mode, AwaitAttachment(s.attachment.value));
    } else {
      SendsAndWaits(s, token, mode, true);
    }
  }

  lemma AttachmentSent(s: Slot)
    requires InFlightOk(s)
    ensures s.attachment.Some? ==> IsRequest(s, s.attachment.value)
    ensures s.detachment.Some? ==> IsRequest(s, s.detachment.value)
    ensures s.reconciliation.Some? ==> IsRequest(s, s.reconciliation.value)
  {
  }

  lemma ReconcilesInFlight(s: Slot, token: Token, mode: Mode)
    requires InFlightOk(s) && token < s.nextToken && token !in s.handles && token !in s.acquisitions
    ensures InFlightOk(AfterDetachment(s, token, mode))
  {
    hide InFlightOk, AfterReconciliation;
    AttachmentSent(s);
    if !s.cleanupRequired {
      AttachesInFlight(s, token, mode, false);
    } else if s.reconciliation.Some? {
      Waits(s, token, mode, AwaitReconciliation(s.reconciliation.value));
    } else {
      SendsAndWaits(s, token, mode, false);
    }
  }

  lemma FreshToken(s: Slot)
    requires InFlightOk(s)
    ensures s.nextToken !in s.acquisitions && s.nextToken !in s.handles
  {
    assert AcquisitionOk(s, s.nextToken) && HandleOk(s, s.nextToken);
  }

  lemma AcquiresInFlight(s: Slot, mode: Mode)
    requires InFlightOk(s)
    ensures InFlightOk(AcquireSession(s, mode))
  {
    hide InFlightOk, AfterDetachment;
    var token := s.nextToken;
    FreshToken(s);
    var r := Reserve(s.(nextToken := token + 1), token, mode);
    SameFlightOk(s, s.(nextToken := token + 1));
    if r.Some? {
      SameFlightOk(s, r.value);
      AttachmentSent(s);
      if s.detachment.Some? {
        Waits(r.value, token, mode, AwaitDetachment(s.detachment.value));
      } else {
        ReconcilesInFlight(r.value, token, mode);
      }
    }
  }

  /** An acquisition that goes on leaves its place; if it waited for the running attach, that entry goes with it. */
  lemma Leaves(s: Slot, token: Token)
    requires InFlightOk(s) && token in s.acquisitions
    ensures var stage := s.acquisitions[token].stage;
            var t := s.(acquisitions := s.acquisitions - {token});
            InFlightOk(if stage.AwaitAttachment? && s.attachment == Some(stage.request)
                       then t.(attachment := None) else t)
    ensures token < s.nextToken && token !in s.handles
  {
    var stage := s.acquisitions[token].stage;
    var t := s.(acquisitions := s.acquisitions - {token});
    var u := if stage.AwaitAttachment? && s.attachment == Some(stage.request) then t.(attachment := None) else t;
    assert AcquisitionOk(s, token);
    forall k ensures AcquisitionOk(u, k) { assert AcquisitionOk(s, k); }
    forall k ensures HandleOk(u, k) { assert HandleOk(s, k); }
    if u.attachment.Some? {
      var k :| WaitsFor(s, k, s.attachment.value);
      assert WaitsFor(u, k, u.attachment.value);
    }
  }

  lemma ContinuesInFlight(s: Slot, token: Token)
    requires InFlightOk(s) && Enabled(s, ResumeAcquire(token))
    ensures InFlightOk(ContinueAcquire(s, token))
  {
    hide InFlightOk, AfterDetachment, AfterReconciliation;
    Leaves(s, token);
    var a := s.acquisitions[token];
    var ok := s.requests[a.stage.request].settled.value;
    var t := s.(acquisitions := s.acquisitions - {token});
    match a.stage
    case AwaitDetachment(_) => ReconcilesInFlight(t, token, a.mode);
    case AwaitReconciliation(_) =>
      AttachesInFlight(t, token, a.mode, true);
      SameFlightOk(t, ReleaseLease(t, token));
    case AwaitAttachment(q) =>
      var u := if s.attachment == Some(q) then t.(attachment := None) else t;
      Creates(u, token, a.mode);
      SameFlightOk(u, ReleaseLease(u, token));
  }

  lemma RephasesInFlight(s: Slot, token: Token, phase: Phase)
    requires InFlightOk(s) && token in s.handles && (phase.Releasing? ==> IsRequest(s, phase.request))
    ensures InFlightOk(SetPhase(s, token, phase))
  {
    var s' := SetPhase(s, token, phase);
    forall t ensures AcquisitionOk(s', t) { assert AcquisitionOk(s, t); }
    forall t ensures HandleOk(s', t) { assert HandleOk(s, t); }
    if s.attachment.Some? {
      var t :| WaitsFor(s, t, s.attachment.value);
      assert WaitsFor(s', t, s.attachment.value);
    }
  }

  lemma ReleasesInFlight(s: Slot, token: Token, relinquish: bool)
    requires InFlightOk(s)
    ensures InFlightOk(ReleaseHandle(s, token, relinquish))
  {
    hide InFlightOk, SetPhase;
    if IsActive(s, token) && s.connected {
      if s.count <= 1 {
        var q := |s.requests|;
        var t := Send(s, DetachCommand);
        SameFlightOk(s, t);
        DetachBegins(t, q);
        RephasesInFlight(t.(detachment := Some(q)), token, Releasing(q, relinquish));
      } else {
        SameFlightOk(s, ReleaseLease(s, token));
        RephasesInFlight(ReleaseLease(s, token), token, Released);
      }
    }
  }

  lemma DetachBegins(s: Slot, q: RequestId)
    requires InFlightOk(s) && IsRequest(s, q)
    ensures InFlightOk(s.(detachment := Some(q)))
  {
    var s' := s.(detachment := Some(q));
    forall t ensures AcquisitionOk(s', t) { assert AcquisitionOk(s, t); }
    forall t ensures HandleOk(s', t) { assert HandleOk(s, t); }
    if s.attachment.Some? {
      var t :| WaitsFor(s, t, s.attachment.value);
      assert WaitsFor(s', t, s.attachment.value);
    }
  }

  lemma ReleaseEndsInFlight(s: Slot, token: Token)
    requires InFlightOk(s) && Enabled(s, ResumeRelease(token))
    ensures InFlightOk(ContinueRelease(s, token))
  {
    hide InFlightOk, SetPhase;
    var phase := s.handles[token].phase;
    var t := if s.detachment == Some(phase.request) then s.(detachment := None) else s;
    SameFlightOk(s, t);
    SameFlightOk(t, ReleaseLease(t, token));
    RephasesInFlight(t, token, Released);
    RephasesInFlight(t, token, Active);
    RephasesInFlight(ReleaseLease(t, token), token, Released);
    var u := SetPhase(ReleaseLease(t, token), token, Released);
    SameFlightOk(u, u.(cleanupRequired := true));
  }

  lemma CreateEndsInFlight(s: Slot)
    requires InFlightOk(s) && s.creations > 0
    ensures InFlightOk(ContinueCreate(s))
  {
    hide InFlightOk, CreateLease;
    FreshToken(s);
    var t := s.(nextToken := s.nextToken + 1, creations := s.creations - 1);
    SameFlightOk(s, t);
    var r := Reserve(t, s.nextToken, Exclusive);
    if r.Some? {
      SameFlightOk(s, r.value);
      Creates(r.value, s.nextToken, Exclusive);
    }
  }

  lemma StepInFlight(s: Slot, e: Event)
    requires InFlightOk(s) && Enabled(s, e)
    ensures InFlightOk(Apply(s, e))
  {
    hide InFlightOk, SameFlight, AcquireSession, ContinueAcquire, ContinueCreate, ReleaseHandle, ContinueRelease;
    match e
    case Acquire(mode) => AcquiresInFlight(s, mode);
    case ResumeAcquire(t) => ContinuesInFlight(s, t);
    case ResumeCreate => CreateEndsInFlight(s);
    case Release(t, relinquish) => ReleasesInFlight(s, t, relinquish);
    case ResumeRelease(t) => ReleaseEndsInFlight(s, t);
    case _ =>
      OtherEventsInFlight(s, e);
      SameFlightOk(s, Apply(s, e));
  }

  lemma OtherEventsInFlight(s: Slot, e: Event)
    requires Enabled(s, e) && !e.Acquire? && !e.ResumeAcquire? && !e.ResumeCreate? && !e.Release? && !e.ResumeRelease?
    ensures SameFlight(s, Apply(s, e))
  {
    hide Settle, LoseConnection;
    match e
    case Respond(q, ok, attached) => SettlingInFlight(s, q, ok, attached);
    case Disconnect => LosingInFlight(s);
    case _ =>
  }

  lemma SettlingInFlight(s: Slot, q: RequestId, ok: bool, attached: bool)
    requires q < |s.requests|
    ensures SameFlight(s, Settle(s, q, ok, attached))
  {
  }

  lemma LosingInFlight(s: Slot)
    ensures SameFlight(s, LoseConnection(s))
  {
  }

  // Disconnects

  /** The attach has succeeded, and the acquisition that waits for it has not gone on yet. */
  predicate Granted(s: Slot, t: Token) {
    t in s.acquisitions && s.acquisitions[t].stage.AwaitAttachment? && Succeeded(s, s.acquisitions[t].stage.request)
  }

  ghost predicate AllSettled(s: Slot) {
    forall q :: 0 <= q < |s.requests| ==> s.requests[q].settled.Some?
  }

  /**
   * After a disconnect: no handle is alive and nothing in flight can become one. The count may fall behind the
   * acquisitions, because those from before the disconnect still give back what is no longer theirs.
   */
  ghost predicate Lapsed(s: Slot) {
    && !s.connected && !s.attached && !s.cleanupRequired && s.reconciliation.None? && s.creations == 0 && AllSettled(s)
    && (forall t <- s.handles :: !Live(s, t))
    && (forall t <- s.acquisitions :: !Granted(s, t))
    && 0 <= s.count <= |s.acquisitions|
    && (s.exclusive.Some? ==> s.exclusive.value in s.acquisitions)
  }

  ghost predicate Inv(s: Slot) {
    InFlightOk(s) && (Right(s) || Lapsed(s))
  }

  /**
   * What a disconnect may find in flight: no acquisition whose attach has succeeded and, beside an answered
   * create, no acquisition at all and no release whose detach has succeeded.
   */
  ghost predicate CalmLoss(s: Slot) {
    && (forall t <- s.acquisitions :: !Granted(s, t))
    && (s.creations > 0 ==> NothingToGiveBack(s))
  }

  /** Nothing in flight will give a reservation back after a disconnect. */
  ghost predicate NothingToGiveBack(s: Slot) {
    && s.acquisitions == map[]
    && forall t <- s.handles :: s.handles[t].phase.Releasing? ==> !Succeeded(s, s.handles[t].phase.request)
  }

  lemma LossFails(s: Slot)
    requires InFlightOk(s)
    ensures var s' := LoseConnection(s);
            && AllSettled(s')
            && forall t <- s.acquisitions :: Granted(s', t) <==> Granted(s, t)
  {
    forall t | t in s.acquisitions ensures Granted(LoseConnection(s), t) <==> Granted(s, t) {
      assert AcquisitionOk(s, t);
    }
  }

  lemma NoCountNoHandle(s: Slot, t: Token)
    requires Right(s) && s.count == 0
    ensures Holder(s, t) == None
  {
    assert Holders(s) == map[];
    assert Holder(s, t).Some? <==> t in Holders(s);
  }

  lemma LossEndsHandles(s: Slot)
    requires Right(s)
    ensures forall t <- s.handles :: !Live(LoseConnection(s), t)
  {
    forall t | t in s.handles ensures !Live(LoseConnection(s), t) {
      if s.count == 0 {
        NoCountNoHandle(s, t);
      }
    }
  }

  /** A disconnect leaves the leases in order exactly when what it finds in flight is calm. */
  lemma DisconnectOk(s: Slot)
    requires InFlightOk(s) && Right(s)
    ensures Inv(LoseConnection(s)) <==> CalmLoss(s)
  {
    hide Holders, InFlightOk;
    var s' := LoseConnection(s);
    SameFlightOk(s, s');
    LossFails(s);
    LossEndsHandles(s);
    NoneHeld(s);
    if NothingToGiveBack(s) {
      IdleLoss(s);
    } else {
      RestlessLoss(s);
    }
  }

  /** Otherwise: the acquisition goes on after the disconnect, and its handle is alive without being counted. */
  lemma GrantOutlivesLoss(s: Slot, t: Token)
    requires InFlightOk(s) && Right(s) && Granted(s, t)
    ensures var s' := LoseConnection(s);
            && Enabled(s', ResumeAcquire(t))
            && Live(ContinueAcquire(s', t), t) && ContinueAcquire(s', t).count == 0 && !Right(ContinueAcquire(s', t))
  {
    hide Holders, InFlightOk;
    LossFails(s);
    NoneHeld(s);
    var u := ContinueAcquire(LoseConnection(s), t);
    assert Holder(u, t).Some?;
  }

  lemma IdleLoss(s: Slot)
    requires InFlightOk(s) && Right(s) && NothingToGiveBack(s)
    ensures Right(LoseConnection(s))
  {
    hide Holders;
    LossEndsHandles(s);
    NoneHeld(s);
    var s' := LoseConnection(s);
    SameMap(s', map[]);
    forall t | t in s'.handles && s'.handles[t].phase.Releasing? ensures Rejected(s', s'.handles[t].phase.request) {
      assert HandleOk(s, t);
    }
  }

  lemma NoneHeld(s: Slot)
    requires Right(s)
    ensures LoseConnection(s).count == 0 && LoseConnection(s).exclusive.None?
  {
    assert s.exclusive.Some? ==> s.exclusive.value in Holders(s) && Holders(s) != map[];
  }

  /** With something to give back the tables, now empty, are not in order. */
  lemma RestlessLoss(s: Slot)
    requires Right(s) && !NothingToGiveBack(s)
    ensures !Right(LoseConnection(s))
  {
    hide Holders;
    var s' := LoseConnection(s);
    if s.acquisitions != map[] {
      var t :| t in s.acquisitions;
      NoneHeld(s);
      assert Holder(s', t).Some?;
    } else {
      var t :| t in s.handles && s.handles[t].phase.Releasing? && Succeeded(s, s.handles[t].phase.request);
      LossEndsHandles(s);
      assert !Live(s', t) && Succeeded(s', s.handles[t].phase.request);
    }
  }

  // Steps without a connection

  /** The token has asked for a reservation, or has had one, and is in neither table. */
  ghost predicate LapsedBut(s: Slot, token: Token) {
    && !s.connected && !s.attached && !s.cleanupRequired && s.reconciliation.None? && s.creations == 0 && AllSettled(s)
    && (forall t <- s.handles :: !Live(s, t))
    && (forall t <- s.acquisitions :: !Granted(s, t))
    && token !in s.acquisitions && 0 <= s.count <= |s.acquisitions| + 1
    && (s.exclusive.Some? ==> s.exclusive.value in s.acquisitions || s.exclusive.value == token)
  }

  lemma LapsedFails(s: Slot, token: Token)
    requires LapsedBut(s, token)
    ensures Lapsed(ReleaseLease(s, token))
  {
  }

  lemma LapsedWaits(s: Slot, token: Token, mode: Mode, stage: Stage)
    requires LapsedBut(s, token) && !(stage.AwaitAttachment? && Succeeded(s, stage.request))
    ensures Lapsed(Wait(s, token, mode, stage))
  {
    var s' := Wait(s, token, mode, stage);
    assert s'.acquisitions.Keys == s.acquisitions.Keys + {token};
    assert |s'.acquisitions.Keys| == |s.acquisitions.Keys| + 1;
    forall t | t in s'.acquisitions ensures !Granted(s', t) {
      assert t != token ==> !Granted(s, t);
    }
  }

  /** The running attach, if one is still entered, has failed. */
  lemma AttachHasFailed(s: Slot)
    requires InFlightOk(s) && AllSettled(s) && forall t <- s.acquisitions :: !Granted(s, t)
    ensures s.attachment.Some? ==> !s.requests[s.attachment.value].settled.value
  {
    if s.attachment.Some? {
      var t :| WaitsFor(s, t, s.attachment.value);
      assert !Granted(s, t);
    }
  }

  lemma LapsedAttaches(s: Slot, token: Token, mode: Mode, reconciled: bool)
    requires InFlightOk(s) && LapsedBut(s, token)
    ensures Lapsed(AfterReconciliation(s, token, mode, reconciled))
    ensures Lapsed(AfterDetachment(s, token, mode))
  {
    hide InFlightOk, Lapsed;
    AttachHasFailed(s);
    if s.attachment.Some? {
      LapsedWaits(s, token, mode, AwaitAttachment(s.attachment.value));
    } else {
      var q := |s.requests|;
      var t := Send(s, AttachCommand).(attachment := Some(q));
      LapsedSends(s, token);
      LapsedWaits(t, token, mode, AwaitAttachment(q));
    }
  }

  /** Without a connection a request is rejected at once. */
  lemma LapsedSends(s: Slot, token: Token)
    requires InFlightOk(s) && LapsedBut(s, token)
    ensures LapsedBut(Send(s, AttachCommand).(attachment := Some(|s.requests|)), token)
  {
    var s' := Send(s, AttachCommand).(attachment := Some(|s.requests|));
    forall t | t in s.acquisitions ensures !Granted(s', t) {
      assert AcquisitionOk(s, t) && !Granted(s, t);
    }
    assert forall t <- s.handles :: Live(s', t) == Live(s, t);
  }

  lemma LapsedAcquires(s: Slot, mode: Mode)
    requires InFlightOk(s) && Lapsed(s)
    ensures Lapsed(AcquireSession(s, mode))
  {
    hide InFlightOk, AfterDetachment;
    var token := s.nextToken;
    FreshToken(s);
    var next := s.(nextToken := token + 1);
    LapsedNext(s, next);
    var r := Reserve(next, token, mode);
    if r.Some? {
      SameFlightOk(s, r.value);
      LapsedReserves(s, r.value, token);
      if s.detachment.Some? {
        LapsedWaits(r.value, token, mode, AwaitDetachment(s.detachment.value));
      } else {
        LapsedAttaches(r.value, token, mode, false);
      }
    }
  }

  lemma LapsedNext(s: Slot, s': Slot)
    requires Lapsed(s) && s' == s.(nextToken := s'.nextToken)
    ensures Lapsed(s')
  {
    assert forall t <- s.acquisitions :: Granted(s', t) == Granted(s, t);
    assert forall t <- s.handles :: Live(s', t) == Live(s, t);
  }

  lemma LapsedReserves(s: Slot, s': Slot, token: Token)
    requires Lapsed(s) && token !in s.acquisitions
    requires s' == s.(nextToken := s'.nextToken, count := s.count + 1, exclusive := s'.exclusive)
    requires s'.exclusive == s.exclusive || s'.exclusive == Some(token)
    ensures LapsedBut(s', token)
  {
    assert forall t <- s.acquisitions :: Granted(s', t) == Granted(s, t);
    assert forall t <- s.handles :: Live(s', t) == Live(s, t);
  }

  /** An acquisition that goes on is taken out of its table, and the entry of the attach it waited for with it. */
  lemma LapsedLeaves(s: Slot, token: Token, attachment: Option<RequestId>)
    requires Lapsed(s) && token in s.acquisitions
    ensures LapsedBut(s.(acquisitions := s.acquisitions - {token}, attachment := attachment), token)
  {
    var s' := s.(acquisitions := s.acquisitions - {token}, attachment := attachment);
    assert s'.acquisitions.Keys == s.acquisitions.Keys - {token};
    assert |s'.acquisitions.Keys| == |s.acquisitions.Keys| - 1;
    assert forall t <- s'.acquisitions :: Granted(s', t) == Granted(s, t);
    assert forall t <- s.handles :: Live(s', t) == Live(s, t);
  }

  lemma LapsedContinues(s: Slot, token: Token)
    requires InFlightOk(s) && Lapsed(s) && Enabled(s, ResumeAcquire(token))
    ensures Lapsed(ContinueAcquire(s, token))
  {
    hide InFlightOk, AfterDetachment, AfterReconciliation;
    var a := s.acquisitions[token];
    assert !Granted(s, token);
    Leaves(s, token);
    LapsedLeaves(s, token, s.attachment);
    LapsedLeaves(s, token, None);
    var t := s.(acquisitions := s.acquisitions - {token});
    match a.stage
    case AwaitDetachment(_) => LapsedAttaches(t, token, a.mode, false);
    case AwaitReconciliation(_) =>
      LapsedAttaches(t, token, a.mode, true);
      LapsedFails(t, token);
    case AwaitAttachment(q) => LapsedFails(if s.attachment == Some(q) then t.(attachment := None) else t, token);
  }

  /** What lapsing says nothing about may change, and a handle may be released. */
  ghost predicate SameLapse(s: Slot, s': Slot) {
    && s' == s.(handles := s'.handles, count := s'.count, detachment := s'.detachment)
    && s'.handles.Keys == s.handles.Keys && (s'.count == s.count || s'.count == 0 || s'.count == s.count - 1 > 0)
    && forall t <- s.handles :: s'.handles[t] == s.handles[t] || s'.handles[t].phase.Released?
  }

  lemma SameLapseOk(s: Slot, s': Slot)
    requires Lapsed(s) && SameLapse(s, s')
    ensures Lapsed(s')
  {
    assert forall t <- s.acquisitions :: Granted(s', t) == Granted(s, t);
    assert forall t <- s.handles :: Live(s', t) ==> Live(s, t);
  }

  lemma LapsedReleases(s: Slot, token: Token)
    requires InFlightOk(s) && Lapsed(s) && Enabled(s, ResumeRelease(token))
    ensures Lapsed(ContinueRelease(s, token))
  {
    assert AcquisitionOk(s, token);
    hide InFlightOk, Lapsed, SameLapse;
    NoLiveHandle(s, token);
    StaleReleaseEnds(s, token);
    SameLapseOk(s, ContinueRelease(s, token));
  }

  lemma StaleReleaseEnds(s: Slot, token: Token)
    requires Enabled(s, ResumeRelease(token)) && s.handles[token].generation != s.generation
    requires s.count >= 0 && s.exclusive != Some(token)
    ensures SameLapse(s, ContinueRelease(s, token))
  {
    match s.handles[token].phase
    case Releasing(q, _) =>
      if s.requests[q].settled.value {
        assert ReleaseLease(s, token).exclusive == s.exclusive;
      }
  }

  lemma NoLiveHandle(s: Slot, token: Token)
    requires Lapsed(s) && token in s.handles
    ensures !Live(s, token) && (token !in s.acquisitions ==> s.exclusive != Some(token)) && s.count >= 0
  {
  }

  lemma LapsedLoses(s: Slot)
    requires InFlightOk(s) && Lapsed(s)
    ensures Lapsed(LoseConnection(s))
  {
    hide InFlightOk;
    LossFails(s);
    forall t | t in s.handles ensures Live(LoseConnection(s), t) ==> Live(s, t) {
      OldHandles(s, t);
    }
  }

  lemma OldHandles(s: Slot, t: Token)
    requires InFlightOk(s) && t in s.handles
    ensures s.handles[t].generation <= s.generation
  {
    assert HandleOk(s, t);
  }

  lemma NothingOutstanding(s: Slot)
    requires InFlightOk(s) && AllSettled(s)
    ensures forall t <- s.acquisitions :: Settled(s, s.acquisitions[t].stage.request)
    ensures forall t <- s.handles :: s.handles[t].phase.Releasing? ==> Settled(s, s.handles[t].phase.request)
    ensures forall t <- s.handles :: t < s.nextToken && s.handles[t].generation <= s.generation
  {
    forall t | t in s.acquisitions ensures IsRequest(s, s.acquisitions[t].stage.request) {
      assert AcquisitionOk(s, t);
    }
    forall t | t in s.handles ensures HandleOk(s, t) {}
  }

  /** Without a connection every request is settled, so when nothing is left to go on, nothing is in flight. */
  lemma LapsedDrains(s: Slot)
    requires InFlightOk(s) && Lapsed(s) && Drained(s)
    ensures Quiet(s) && Right(s)
  {
    hide Holders, InFlightOk;
    NothingOutstanding(s);
    assert s.acquisitions == map[];
    SameMap(s, map[]);
  }

  lemma LapsedStep(s: Slot, e: Event)
    requires InFlightOk(s) && Lapsed(s) && Enabled(s, e)
    ensures e.Reconnect? || Lapsed(Apply(s, e))
    ensures e.Reconnect? ==> Right(Apply(s, e))
  {
    hide InFlightOk, Right, AcquireSession, ContinueAcquire, ContinueRelease, LoseConnection;
    match e
    case Acquire(mode) => LapsedAcquires(s, mode);
    case ResumeAcquire(t) => LapsedContinues(s, t);
    case ResumeRelease(t) => LapsedReleases(s, t);
    case Disconnect => LapsedLoses(s);
    case Reconnect =>
      LapsedDrains(s);
      SameRight(s, Apply(s, e));
    case _ =>
  }

  /** The steps of a run that the client's tables are made for. */
  ghost predicate CalmStep(s: Slot, e: Event) {
    (e.SessionRemoved? ==> CalmRemoval(s)) && (e.Disconnect? ==> CalmLoss(s))
  }

  /** Every calm event keeps the leases in order. */
  lemma StepKeepsInv(s: Slot, e: Event)
    requires Inv(s) && Enabled(s, e) && CalmStep(s, e)
    ensures Inv(Apply(s, e))
  {
    hide InFlightOk, Right, Lapsed, CalmLoss;
    StepInFlight(s, e);
    if !Right(s) {
      LapsedStep(s, e);
    } else if e.Disconnect? {
      DisconnectOk(s);
    } else if e.Reconnect? {
      SameRight(s, Apply(s, e));
    } else {
      RightStep(s, e);
    }
  }

  // Runs

  /** A run: states linked by enabled events. */
  ghost predicate Execution(states: seq<Slot>, events: seq<Event>) {
    && |states| == |events| + 1 && states[0] == INITIAL
    && forall i :: 0 <= i < |events| ==> Enabled(states[i], events[i]) && states[i + 1] == Apply(states[i], events[i])
  }

  /** The first n steps are calm. */
  ghost predicate Calm(states: seq<Slot>, events: seq<Event>, n: nat)
    requires |states| == |events| + 1 && n <= |events|
  {
    forall i :: 0 <= i < n ==> CalmStep(states[i], events[i])
  }

  lemma {:induction false} ExecutionKeepsInv(states: seq<Slot>, events: seq<Event>, n: nat)
    requires Execution(states, events) && n <= |events| && Calm(states, events, n)
    ensures Inv(states[n])
  {
    hide Apply, Enabled, InFlightOk, Right, Lapsed, CalmStep;
    if n == 0 {
      InitiallyOk();
    } else {
      ExecutionKeepsInv(states, events, n - 1);
      StepKeepsInv(states[n - 1], events[n - 1]);
    }
  }

  lemma InitiallyOk()
    ensures InFlightOk(INITIAL) && Right(INITIAL)
  {
    SameMap(INITIAL, map[]);
  }

  /**
   * The lease count is the number of acquisitions in flight and live handles, and an exclusive holder is alone,
   * whenever the client is connected or no continuation is left to run; the count never exceeds that number.
   */
  lemma CountIsOutstanding(states: seq<Slot>, events: seq<Event>, n: nat)
    requires Execution(states, events) && n <= |events| && Calm(states, events, n)
    ensures 0 <= states[n].count <= |Holders(states[n])|
    ensures states[n].connected || Drained(states[n]) ==>
              && states[n].count == |Holders(states[n])|
              && (states[n].exclusive.Some? ==> Holders(states[n]) == map[states[n].exclusive.value := Exclusive])
  {
    hide Holders, InFlightOk;
    ExecutionKeepsInv(states, events, n);
    var s := states[n];
    if !Right(s) {
      if Drained(s) {
        LapsedDrains(s);
      }
      HoldersAreAcquisitions(s);
    }
  }

  lemma HoldersAreAcquisitions(s: Slot)
    requires Lapsed(s)
    ensures |Holders(s)| == |s.acquisitions|
  {
    hide Holders;
    var h := map t | t in s.acquisitions :: s.acquisitions[t].mode;
    forall t ensures Holder(s, t) == if t in h then Some(h[t]) else None {}
    SameMap(s, h);
    assert h.Keys == s.acquisitions.Keys;
  }

  /** Two handles that are active at the same time are both shared. */
  lemma ExclusiveIsAlone(states: seq<Slot>, events: seq<Event>, n: nat, a: Token, b: Token)
    requires Execution(states, events) && n <= |events| && Calm(states, events, n)
    requires a != b && IsActive(states[n], a) && IsActive(states[n], b)
    ensures states[n].handles[a].mode.Shared? && states[n].handles[b].mode.Shared?
  {
    hide InFlightOk;
    ExecutionKeepsInv(states, events, n);
    var s := states[n];
    assert Right(s);
    assert Holder(s, a) == Some(s.handles[a].mode) && Holder(s, b) == Some(s.handles[b].mode);
    assert a in Holders(s) && b in Holders(s);
  }

  /** A handle that is not live now and will never be again. */
  predicate Dead(s: Slot, t: Token) {
    t in s.handles && !Live(s, t) && s.handles[t].generation <= s.generation
  }

  /** What operations on other tokens do not change of a handle. */
  ghost predicate HandleKept(s: Slot, s': Slot, t: Token)
    requires t in s.handles
  {
    t in s'.handles && s'.handles[t] == s.handles[t] && s.generation <= s'.generation
  }

  lemma ReconcilingKeepsHandles(s: Slot, token: Token, mode: Mode, t: Token)
    requires t in s.handles && t != token
    ensures HandleKept(s, AfterDetachment(s, token, mode), t)
    ensures forall reconciled :: HandleKept(s, AfterReconciliation(s, token, mode, reconciled), t)
  {
  }

  lemma AcquireKeepsHandles(s: Slot, mode: Mode, t: Token)
    requires InFlightOk(s) && t in s.handles
    ensures HandleKept(s, AcquireSession(s, mode), t)
  {
    FreshToken(s);
    hide InFlightOk, AfterDetachment;
    var r := Reserve(s.(nextToken := s.nextToken + 1), s.nextToken, mode);
    if r.Some? {
      ReconcilingKeepsHandles(r.value, s.nextToken, mode, t);
    }
  }

  lemma ContinuingKeepsHandles(s: Slot, token: Token, t: Token)
    requires InFlightOk(s) && t in s.handles && Enabled(s, ResumeAcquire(token))
    ensures HandleKept(s, ContinueAcquire(s, token), t)
  {
    assert AcquisitionOk(s, token);
    hide InFlightOk, AcquisitionOk, AfterDetachment, AfterReconciliation;
    if s.acquisitions[token].stage.AwaitAttachment? {
      hide ContinueAcquire;
      AttachingKeepsHandles(s, token, t);
    } else {
      ReconcilingKeepsHandles(s.(acquisitions := s.acquisitions - {token}), token, s.acquisitions[token].mode, t);
    }
  }

  lemma AttachingKeepsHandles(s: Slot, token: Token, t: Token)
    requires t in s.handles && t != token && Enabled(s, ResumeAcquire(token))
    requires s.acquisitions[token].stage.AwaitAttachment?
    ensures HandleKept(s, ContinueAcquire(s, token), t)
  {
  }

  lemma CreatingKeepsHandles(s: Slot, t: Token)
    requires InFlightOk(s) && t in s.handles && s.creations > 0
    ensures HandleKept(s, ContinueCreate(s), t)
  {
    FreshToken(s);
  }

  /** A release that ends does not revive its handle, nor any other. */
  lemma ReleasingKeepsDead(s: Slot, token: Token, t: Token)
    requires Enabled(s, ResumeRelease(token)) && Dead(s, t)
    ensures Dead(ContinueRelease(s, token), t)
  {
    hide ContinueRelease;
    if t == token {
      EndedReleaseKeepsDead(s, token);
    } else {
      OtherHandlesStay(s, token, t);
    }
  }

  lemma EndedReleaseKeepsDead(s: Slot, token: Token)
    requires Enabled(s, ResumeRelease(token)) && Dead(s, token)
    ensures Dead(ContinueRelease(s, token), token)
  {
  }

  lemma OtherHandlesStay(s: Slot, token: Token, t: Token)
    requires Enabled(s, ResumeRelease(token)) && t in s.handles && t != token
    ensures HandleKept(s, ContinueRelease(s, token), t)
  {
  }

  lemma BeginningKeepsDead(s: Slot, token: Token, relinquish: bool, t: Token)
    requires token in s.handles && Dead(s, t)
    ensures Dead(ReleaseHandle(s, token, relinquish), t)
  {
    assert t == token ==> !IsActive(s, token);
  }

  lemma DeadStaysDead(s: Slot, e: Event, t: Token)
    requires InFlightOk(s) && Enabled(s, e) && Dead(s, t)
    ensures Dead(Apply(s, e), t)
  {
    hide InFlightOk, AcquireSession, ContinueAcquire, ContinueCreate, ReleaseHandle, ContinueRelease;
    match e
    case Acquire(mode) => AcquireKeepsHandles(s, mode, t);
    case ResumeAcquire(token) => ContinuingKeepsHandles(s, token, t);
    case ResumeCreate => CreatingKeepsHandles(s, t);
    case Release(token, relinquish) => BeginningKeepsDead(s, token, relinquish, t);
    case ResumeRelease(token) => ReleasingKeepsDead(s, token, t);
    case _ =>
  }

  lemma {:induction false} ExecutionInFlight(states: seq<Slot>, events: seq<Event>, n: nat)
    requires Execution(states, events) && n <= |events|
    ensures InFlightOk(states[n])
  {
    hide Apply, Enabled, InFlightOk;
    if n == 0 {
      InitiallyOk();
    } else {
      ExecutionInFlight(states, events, n - 1);
      StepInFlight(states[n - 1], events[n - 1]);
    }
  }

  /**
   * A disconnect ends every handle that exists, for good: reconnecting and attaching again revives none. Only
   * the steps before the disconnect need to be calm.
   */
  lemma {:induction false} DisconnectIsFinal(states: seq<Slot>, events: seq<Event>, i: nat, j: nat, t: Token)
    requires Execution(states, events) && i < j <= |events| && Calm(states, events, i)
    requires events[i].Disconnect? && t in states[i].handles
    ensures Dead(states[j], t) && !IsActive(states[j], t)
  {
    hide Apply, Enabled, InFlightOk, Dead;
    assert Enabled(states[j - 1], events[j - 1]) && states[j] == Apply(states[j - 1], events[j - 1]);
    if j == i + 1 {
      ExecutionKeepsInv(states, events, i);
      DisconnectEndsHandles(states[i], t);
    } else {
      DisconnectIsFinal(states, events, i, j - 1, t);
      ExecutionInFlight(states, events, j - 1);
      DeadStaysDead(states[j - 1], events[j - 1], t);
    }
    DeadIsInactive(states[j], t);
  }

  lemma DeadIsInactive(s: Slot, t: Token)
    requires Dead(s, t)
    ensures !IsActive(s, t)
  {
  }

  lemma DisconnectEndsHandles(s: Slot, t: Token)
    requires Inv(s) && t in s.handles
    ensures Dead(Apply(s, Disconnect), t)
  {
    hide Holders;
    assert HandleOk(s, t);
    if Right(s) {
      LossEndsHandles(s);
    }
  }
}
