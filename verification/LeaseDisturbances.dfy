/**
 * Exactly when a removal or a disconnect does harm: there is harm when some continuation of the run leads to
 * a handle that is alive while the count is zero, so that an exclusive lease would be let in beside it.
 */
module LeaseDisturbances {
  import opened LeaseProtocol
  import opened LeaseSafety
  import opened LeaseTheorems

  /** The handle is alive, and nothing counts it. */
  predicate Stray(s: Slot, t: Token) {
    Live(s, t) && s.count == 0
  }

  /** A stretch of a run that starts in s, without a removal or a disconnect. */
  ghost predicate Stretch(s: Slot, states: seq<Slot>, events: seq<Event>) {
    && |states| == |events| + 1 && states[0] == s
    && forall i :: 0 <= i < |events| ==>
         && !events[i].SessionRemoved? && !events[i].Disconnect?
         && Enabled(states[i], events[i]) && states[i + 1] == Apply(states[i], events[i])
  }

  /** Whatever happens from here up to the next removal or disconnect, every live handle is counted. */
  ghost predicate Orderly(s: Slot) {
    forall states, events, t :: Stretch(s, states, events) ==> !Stray(states[|events|], t)
  }

  // The invariant is enough

  lemma NoStray(s: Slot, t: Token)
    requires Inv(s)
    ensures !Stray(s, t)
  {
    hide InFlightOk;
    if Right(s) && s.count == 0 {
      NoCountNoHandle(s, t);
    }
  }

  lemma {:induction false} StretchKeepsInv(s: Slot, states: seq<Slot>, events: seq<Event>, n: nat)
    requires Inv(s) && Stretch(s, states, events) && n <= |events|
    ensures Inv(states[n])
  {
    hide Inv, Enabled, Apply;
    if n > 0 {
      StretchKeepsInv(s, states, events, n - 1);
      StepKeepsInv(states[n - 1], events[n - 1]);
    }
  }

  lemma InvIsOrderly(s: Slot)
    requires Inv(s)
    ensures Orderly(s)
  {
    hide Inv, Stray;
    forall states, events, t | Stretch(s, states, events) ensures !Stray(states[|events|], t) {
      StretchKeepsInv(s, states, events, |events|);
      NoStray(states[|events|], t);
    }
  }

  // How disorder comes about, from its end to its beginning

  lemma StrayNow(s: Slot, t: Token)
    requires Stray(s, t)
    ensures !Orderly(s)
  {
    var events: seq<Event> := [];
    assert Stretch(s, [s], events) && Stray([s][|events|], t);
  }

  lemma StrayAfter(s: Slot, e: Event, s': Slot)
    requires !e.SessionRemoved? && !e.Disconnect? && Enabled(s, e) && s' == Apply(s, e) && !Orderly(s')
    ensures !Orderly(s)
  {
    hide Enabled, Apply, Stray;
    var states, events, t :| Stretch(s', states, events) && Stray(states[|events|], t);
    var (longer, more) := ([s] + states, [e] + events);
    forall i | 0 <= i < |more|
      ensures !more[i].SessionRemoved? && !more[i].Disconnect?
      ensures Enabled(longer[i], more[i]) && longer[i + 1] == Apply(longer[i], more[i])
    {
      if i > 0 {
        assert longer[i] == states[i - 1] && more[i] == events[i - 1];
      }
    }
    assert Stretch(s, longer, more);
    assert longer[|more|] == states[|events|];
  }

  /** The create leases the session, and an acquisition that then fails gives that lease back. */
  lemma FailureTakesLease(s: Slot, t: Token)
    requires s.creations > 0 && s.count == 0 && t in s.acquisitions && t < s.nextToken
    requires !s.acquisitions[t].stage.AwaitDetachment? && Rejected(s, s.acquisitions[t].stage.request)
    ensures !Orderly(s)
  {
    var u := ContinueCreate(s);
    assert Live(u, s.nextToken) && u.count == 1;
    var v := ContinueAcquire(u, t);
    StrayNow(v, s.nextToken);
    StrayAfter(u, ResumeAcquire(t), v);
    StrayAfter(s, ResumeCreate, u);
  }

  /** So does a release whose detach has succeeded. */
  lemma DetachTakesLease(s: Slot, t: Token)
    requires s.creations > 0 && s.count == 0 && t in s.handles && t < s.nextToken
    requires s.handles[t].phase.Releasing? && Succeeded(s, s.handles[t].phase.request)
    ensures !Orderly(s)
  {
    var u := ContinueCreate(s);
    assert Live(u, s.nextToken) && u.count == 1;
    var v := ContinueRelease(u, t);
    StrayNow(v, s.nextToken);
    StrayAfter(u, ResumeRelease(t), v);
    StrayAfter(s, ResumeCreate, u);
  }

  lemma GrantIsStray(s: Slot, t: Token)
    requires s.count == 0 && Granted(s, t)
    ensures !Orderly(s)
  {
    var u := ContinueAcquire(s, t);
    StrayNow(u, t);
    StrayAfter(s, ResumeAcquire(t), u);
  }

  // Disconnects

  /** Whatever the acquisition waits for, it fails in the end. */
  lemma CreateBesideAcquisition(s: Slot, t: Token)
    requires InFlightOk(s) && AllSettled(s) && !s.connected && !s.attached && !s.cleanupRequired
    requires s.count == 0 && s.creations > 0 && t in s.acquisitions && forall k <- s.acquisitions :: !Granted(s, k)
    ensures !Orderly(s)
  {
    hide Orderly;
    var stage := s.acquisitions[t].stage;
    assert AcquisitionOk(s, t) && !Granted(s, t);
    AttachHasFailed(s);
    AttachmentSent(s);
    if stage.AwaitDetachment? || (stage.AwaitReconciliation? && Succeeded(s, stage.request)) {
      var u := ContinueAcquire(s, t);
      FailureTakesLease(u, t);
      StrayAfter(s, ResumeAcquire(t), u);
    } else {
      FailureTakesLease(s, t);
    }
  }

  /** An answered create beside an acquisition in flight, or beside a detach that has succeeded, outlives the loss. */
  lemma CreateOutlivesLoss(s: Slot)
    requires InFlightOk(s) && Right(s) && s.creations > 0 && !NothingToGiveBack(s)
    requires forall t <- s.acquisitions :: !Granted(s, t)
    ensures !Orderly(LoseConnection(s))
  {
    var s' := LoseConnection(s);
    hide Right, Orderly;
    NoneHeld(s);
    if s.acquisitions != map[] {
      hide InFlightOk;
      LossFails(s);
      StepInFlight(s, Disconnect);
      var t :| t in s.acquisitions;
      CreateBesideAcquisition(s', t);
    } else {
      var t :| t in s.handles && s.handles[t].phase.Releasing? && Succeeded(s, s.handles[t].phase.request);
      assert HandleOk(s, t);
      hide InFlightOk, Right, Orderly;
      DetachStillSucceeded(s, s.handles[t].phase.request);
      DetachTakesLease(s', t);
    }
  }

  lemma DetachStillSucceeded(s: Slot, q: RequestId)
    requires Succeeded(s, q)
    ensures Succeeded(LoseConnection(s), q)
  {
  }

  /** A disconnect does no harm if and only if what it finds in flight is calm. */
  lemma DisconnectIsCalmExactly(s: Slot)
    requires Inv(s)
    ensures Orderly(LoseConnection(s)) <==> CalmLoss(s)
  {
    hide InFlightOk, Orderly, Right;
    var s' := LoseConnection(s);
    if CalmLoss(s) {
      StepKeepsInv(s, Disconnect);
      InvIsOrderly(s');
    } else if t :| t in s.acquisitions && Granted(s, t) {
      NoneHeld(s);
      LossFails(s);
      GrantIsStray(s', t);
    } else {
      CreateOutlivesLoss(s);
    }
  }

  // Removals

  /** While connected, a create can be answered at any time. */
  lemma FailureUncounted(s: Slot, t: Token)
    requires s.connected && s.count == 0 && t in s.acquisitions && t < s.nextToken
    requires !s.acquisitions[t].stage.AwaitDetachment? && Rejected(s, s.acquisitions[t].stage.request)
    ensures !Orderly(s)
  {
    var u := Apply(s, Created(false));
    FailureTakesLease(u, t);
    StrayAfter(s, Created(false), u);
  }

  lemma AttachUncounted(s: Slot, t: Token)
    requires s.connected && s.count == 0 && t in s.acquisitions && t < s.nextToken
    requires s.acquisitions[t].stage.AwaitAttachment? && IsRequest(s, s.acquisitions[t].stage.request)
    ensures !Orderly(s)
  {
    var q := s.acquisitions[t].stage.request;
    if Rejected(s, q) {
      FailureUncounted(s, t);
    } else if Succeeded(s, q) {
      GrantIsStray(s, t);
    } else {
      var u := Settle(s, q, true, true);
      GrantIsStray(u, t);
      StrayAfter(s, Respond(q, true, true), u);
    }
  }

  /** The acquisition goes on to attach, or is granted at once. */
  lemma GoesOnUncounted(s: Slot, t: Token)
    requires s.connected && s.count == 0 && t in s.acquisitions && t < s.nextToken && !s.cleanupRequired
    requires s.attachment.Some? ==> IsRequest(s, s.attachment.value)
    requires var stage := s.acquisitions[t].stage;
             (stage.AwaitDetachment? && Settled(s, stage.request))
             || (stage.AwaitReconciliation? && Succeeded(s, stage.request))
    ensures !Orderly(s)
  {
    var u := ContinueAcquire(s, t);
    if t in u.acquisitions {
      AttachUncounted(u, t);
    } else {
      StrayNow(u, t);
    }
    StrayAfter(s, ResumeAcquire(t), u);
  }

  lemma AcquisitionUncounted(s: Slot, t: Token)
    requires s.connected && s.count == 0 && t in s.acquisitions && t < s.nextToken && !s.cleanupRequired
    requires s.attachment.Some? ==> IsRequest(s, s.attachment.value)
    requires IsRequest(s, s.acquisitions[t].stage.request)
    ensures !Orderly(s)
  {
    hide Orderly;
    var stage := s.acquisitions[t].stage;
    if stage.AwaitAttachment? {
      AttachUncounted(s, t);
    } else if Rejected(s, stage.request) && stage.AwaitReconciliation? {
      FailureUncounted(s, t);
    } else if Settled(s, stage.request) {
      GoesOnUncounted(s, t);
    } else {
      var u := Settle(s, stage.request, true, false);
      GoesOnUncounted(u, t);
      StrayAfter(s, Respond(stage.request, true, false), u);
    }
  }

  lemma ReleaseUncounted(s: Slot, t: Token)
    requires s.connected && s.count == 0 && t in s.handles && t < s.nextToken && s.handles[t].phase.Releasing?
    requires IsRequest(s, s.handles[t].phase.request) && !Rejected(s, s.handles[t].phase.request)
    ensures !Orderly(s)
  {
    hide Orderly;
    var q := s.handles[t].phase.request;
    var u := if Succeeded(s, q) then s else Settle(s, q, true, false);
    var v := Apply(u, Created(false));
    DetachTakesLease(v, t);
    StrayAfter(u, Created(false), v);
    if !Succeeded(s, q) {
      StrayAfter(s, Respond(q, true, false), u);
    }
  }

  lemma RemovalHarms(s: Slot)
    requires InFlightOk(s) && s.connected && !CalmRemoval(s)
    ensures !Orderly(Apply(s, SessionRemoved))
  {
    hide Orderly;
    var s' := Apply(s, SessionRemoved);
    AttachmentSent(s);
    if s.acquisitions != map[] {
      var t :| t in s.acquisitions;
      assert AcquisitionOk(s, t);
      AcquisitionUncounted(s', t);
    } else {
      var t :| t in s.handles && s.handles[t].phase.Releasing? && !Rejected(s, s.handles[t].phase.request);
      assert HandleOk(s, t);
      ReleaseUncounted(s', t);
    }
  }

  /** A removal does no harm if and only if what it finds in flight is calm. */
  lemma RemovalIsCalmExactly(s: Slot)
    requires Inv(s) && s.connected
    ensures Orderly(Apply(s, SessionRemoved)) <==> CalmRemoval(s)
  {
    hide InFlightOk, Orderly, Right, CalmRemoval;
    if CalmRemoval(s) {
      StepKeepsInv(s, SessionRemoved);
      InvIsOrderly(Apply(s, SessionRemoved));
    } else {
      RemovalHarms(s);
    }
  }
}
