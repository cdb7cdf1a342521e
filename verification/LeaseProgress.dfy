/**
 * What acquiring and releasing come to: an acquisition that the ownership rules allow can get its handle by its
 * own continuations and answers of the server, and it is refused exactly where a holder stands in its way.
 */
module LeaseProgress {
  import opened Common
  import opened LeaseProtocol
  import opened LeaseSafety
  import opened LeaseTheorems

  /** Somebody holds the session in a way that excludes the mode. */
  ghost predicate Excluded(s: Slot, mode: Mode) {
    exists t <- Holders(s) :: mode.Exclusive? || Holders(s)[t].Exclusive?
  }

  lemma ReserveExactly(s: Slot, mode: Mode)
    requires Right(s)
    ensures Reserve(s.(nextToken := s.nextToken + 1), s.nextToken, mode).None? <==> Excluded(s, mode)
  {
    hide Holders;
    if s.exclusive.Some? {
      assert s.exclusive.value in Holders(s);
    }
    if mode.Exclusive? && s.count > 0 {
      var t :| t in Holders(s);
    }
  }

  /** Refused: no token is waiting or alive for it, and nothing else has changed. */
  lemma RefusedExactly(s: Slot, mode: Mode)
    requires InFlightOk(s) && Right(s)
    ensures AcquireSession(s, mode) == s.(nextToken := s.nextToken + 1) <==> Excluded(s, mode)
  {
    ReserveExactly(s, mode);
    FreshToken(s);
    hide Holders, InFlightOk, TableOk, TokensOk;
    AcquiresSomething(s, mode);
  }

  lemma AcquiresSomething(s: Slot, mode: Mode)
    requires s.nextToken !in s.acquisitions && s.nextToken !in s.handles
    ensures Reserve(s.(nextToken := s.nextToken + 1), s.nextToken, mode).Some? ==>
              s.nextToken in AcquireSession(s, mode).acquisitions || s.nextToken in AcquireSession(s, mode).handles
    ensures Reserve(s.(nextToken := s.nextToken + 1), s.nextToken, mode).None? ==>
              AcquireSession(s, mode) == s.(nextToken := s.nextToken + 1)
  {
  }

  // Getting a handle

  /** The token has become a handle of the mode, alive and in use. */
  predicate HasHandle(s: Slot, t: Token, mode: Mode) {
    Live(s, t) && s.handles[t].phase.Active? && s.handles[t].mode == mode
  }

  predicate OwnStep(e: Event, t: Token) {
    e.Respond? || e == ResumeAcquire(t)
  }

  ghost predicate OwnStretch(s: Slot, states: seq<Slot>, events: seq<Event>, t: Token) {
    && |states| == |events| + 1 && states[0] == s
    && forall i :: 0 <= i < |events| ==>
         OwnStep(events[i], t) && Enabled(states[i], events[i]) && states[i + 1] == Apply(states[i], events[i])
  }

  ghost predicate GetsHandle(s: Slot, t: Token, mode: Mode) {
    exists states, events :: OwnStretch(s, states, events, t) && HasHandle(states[|events|], t, mode)
  }

  lemma HandleNow(s: Slot, t: Token, mode: Mode)
    requires HasHandle(s, t, mode)
    ensures GetsHandle(s, t, mode)
  {
    var events: seq<Event> := [];
    assert OwnStretch(s, [s], events, t) && HasHandle([s][|events|], t, mode);
  }

  lemma HandleAfter(s: Slot, e: Event, s': Slot, t: Token, mode: Mode)
    requires OwnStep(e, t) && Enabled(s, e) && s' == Apply(s, e) && GetsHandle(s', t, mode)
    ensures GetsHandle(s, t, mode)
  {
    hide Enabled, Apply, HasHandle, OwnStep;
    var states, events :| OwnStretch(s', states, events, t) && HasHandle(states[|events|], t, mode);
    var (longer, more) := ([s] + states, [e] + events);
    forall i | 0 <= i < |more|
      ensures OwnStep(more[i], t) && Enabled(longer[i], more[i]) && longer[i + 1] == Apply(longer[i], more[i])
    {
      if i > 0 {
        assert longer[i] == states[i - 1] && more[i] == events[i - 1];
      }
    }
    assert OwnStretch(s, longer, more, t);
    assert longer[|more|] == states[|events|];
  }

  lemma AttachGetsHandle(s: Slot, t: Token, mode: Mode)
    requires s.connected && t in s.acquisitions && s.acquisitions[t].mode == mode
    requires s.acquisitions[t].stage.AwaitAttachment? && IsRequest(s, s.acquisitions[t].stage.request)
    requires !Rejected(s, s.acquisitions[t].stage.request)
    ensures GetsHandle(s, t, mode)
  {
    hide GetsHandle;
    var q := s.acquisitions[t].stage.request;
    var u := if Settled(s, q) then s else Settle(s, q, true, true);
    var v := ContinueAcquire(u, t);
    HandleNow(v, t, mode);
    HandleAfter(u, ResumeAcquire(t), v, t, mode);
    if !Settled(s, q) {
      HandleAfter(s, Respond(q, true, true), u, t, mode);
    }
  }

  /** Nothing that the acquisition may come to share has been rejected already. */
  predicate Promising(s: Slot) {
    && (s.attachment.Some? ==> IsRequest(s, s.attachment.value) && !Rejected(s, s.attachment.value))
    && (s.reconciliation.Some? ==> IsRequest(s, s.reconciliation.value) && !Rejected(s, s.reconciliation.value))
  }

  /** The token waits for a request that may still succeed. */
  predicate WaitsWell(s: Slot, t: Token, mode: Mode) {
    && s.connected && t in s.acquisitions && s.acquisitions[t].mode == mode
    && IsRequest(s, s.acquisitions[t].stage.request) && !Rejected(s, s.acquisitions[t].stage.request)
  }

  lemma AfterReconciliationIs(s: Slot, t: Token, mode: Mode, reconciled: bool)
    requires s.connected && Promising(s) && t !in s.acquisitions
    ensures var u := AfterReconciliation(s, t, mode, reconciled);
            if !reconciled && s.attached then HasHandle(u, t, mode) && t !in u.acquisitions
            else WaitsWell(u, t, mode) && u.acquisitions[t].stage.AwaitAttachment?
  {
  }

  lemma AfterDetachmentIs(s: Slot, t: Token, mode: Mode)
    requires s.connected && Promising(s) && t !in s.acquisitions
    ensures var u := AfterDetachment(s, t, mode);
            || (HasHandle(u, t, mode) && t !in u.acquisitions)
            || (WaitsWell(u, t, mode) && u.acquisitions[t].stage.AwaitAttachment?)
            || (WaitsWell(u, t, mode) && u.acquisitions[t].stage.AwaitReconciliation? && Promising(u))
  {
    hide AfterReconciliation;
    if !s.cleanupRequired {
      AfterReconciliationIs(s, t, mode, false);
    }
  }

  lemma AnsweredWell(s: Slot, t: Token, mode: Mode, attached: bool)
    requires WaitsWell(s, t, mode) && Promising(s) && !Settled(s, s.acquisitions[t].stage.request)
    ensures var u := Settle(s, s.acquisitions[t].stage.request, true, attached);
            WaitsWell(u, t, mode) && Promising(u) && u.acquisitions == s.acquisitions
            && Succeeded(u, s.acquisitions[t].stage.request) && (u.cleanupRequired ==> s.cleanupRequired)
  {
  }

  lemma ReconciledGetsHandle(s: Slot, t: Token, mode: Mode)
    requires WaitsWell(s, t, mode) && Promising(s) && s.acquisitions[t].stage.AwaitReconciliation?
    ensures GetsHandle(s, t, mode)
  {
    hide GetsHandle, Promising, AfterReconciliation;
    var q := s.acquisitions[t].stage.request;
    if !Settled(s, q) {
      AnsweredWell(s, t, mode, false);
    }
    var u := if Settled(s, q) then s else Settle(s, q, true, false);
    var v := u.(acquisitions := u.acquisitions - {t});
    assert Promising(v) by { SamePromise(u, v); }
    AfterReconciliationIs(v, t, mode, true);
    assert ContinueAcquire(u, t) == AfterReconciliation(v, t, mode, true);
    AttachGetsHandle(AfterReconciliation(v, t, mode, true), t, mode);
    HandleAfter(u, ResumeAcquire(t), AfterReconciliation(v, t, mode, true), t, mode);
    if !Settled(s, q) {
      HandleAfter(s, Respond(q, true, false), u, t, mode);
    }
  }

  lemma SamePromise(s: Slot, s': Slot)
    requires Promising(s) && s' == s.(acquisitions := s'.acquisitions, count := s'.count, exclusive := s'.exclusive,
                                      nextToken := s'.nextToken)
    ensures Promising(s')
  {
  }

  /** Once no detach is in the way. */
  lemma UndetachedGetsHandle(s: Slot, t: Token, mode: Mode)
    requires s.connected && Promising(s) && t !in s.acquisitions
    ensures GetsHandle(AfterDetachment(s, t, mode), t, mode)
  {
    hide GetsHandle, Promising, AfterDetachment;
    AfterDetachmentIs(s, t, mode);
    var u := AfterDetachment(s, t, mode);
    if t !in u.acquisitions {
      HandleNow(u, t, mode);
    } else if u.acquisitions[t].stage.AwaitReconciliation? {
      ReconciledGetsHandle(u, t, mode);
    } else {
      AttachGetsHandle(u, t, mode);
    }
  }

  /** The detach that is waited for may fail: then it is made up for. */
  lemma DetachedGetsHandle(s: Slot, t: Token, mode: Mode)
    requires s.connected && Promising(s) && t in s.acquisitions && s.acquisitions[t].mode == mode
    requires s.acquisitions[t].stage.AwaitDetachment? && IsRequest(s, s.acquisitions[t].stage.request)
    ensures GetsHandle(s, t, mode)
  {
    hide GetsHandle, Promising, AfterDetachment;
    var q := s.acquisitions[t].stage.request;
    if !Settled(s, q) {
      AnsweredWell(s, t, mode, false);
    }
    var u := if Settled(s, q) then s else Settle(s, q, true, false);
    var v := u.(acquisitions := u.acquisitions - {t});
    SamePromise(u, v);
    UndetachedGetsHandle(v, t, mode);
    HandleAfter(u, ResumeAcquire(t), AfterDetachment(v, t, mode), t, mode);
    if !Settled(s, q) {
      HandleAfter(s, Respond(q, true, false), u, t, mode);
    }
  }

  lemma AcquireIs(s: Slot, mode: Mode)
    requires Reserve(s.(nextToken := s.nextToken + 1), s.nextToken, mode).Some?
    ensures var (t, r) := (s.nextToken, Reserve(s.(nextToken := s.nextToken + 1), s.nextToken, mode).value);
            && r == s.(nextToken := r.nextToken, count := r.count, exclusive := r.exclusive)
            && AcquireSession(s, mode)
               == if s.detachment.Some? then Wait(r, t, mode, AwaitDetachment(s.detachment.value))
                  else AfterDetachment(r, t, mode)
  {
    hide AfterDetachment;
  }

  /** What the ownership rules allow can be had: the acquisition gets its handle, whatever it has to wait for first. */
  lemma AcquisitionMaySucceed(s: Slot, mode: Mode)
    requires InFlightOk(s) && Right(s) && s.connected && Promising(s) && !Excluded(s, mode)
    ensures GetsHandle(AcquireSession(s, mode), s.nextToken, mode)
  {
    hide InFlightOk, Right, Holders, Excluded, GetsHandle, Promising, AcquireSession;
    ReserveExactly(s, mode);
    FreshToken(s);
    AttachmentSent(s);
    ReservedGetsHandle(s, mode);
  }

  lemma ReservedGetsHandle(s: Slot, mode: Mode)
    requires s.connected && Promising(s) && s.nextToken !in s.acquisitions
    requires s.detachment.Some? ==> IsRequest(s, s.detachment.value)
    requires Reserve(s.(nextToken := s.nextToken + 1), s.nextToken, mode).Some?
    ensures GetsHandle(AcquireSession(s, mode), s.nextToken, mode)
  {
    hide GetsHandle, AfterDetachment, Promising, Reserve, AcquireSession;
    var t := s.nextToken;
    AcquireIs(s, mode);
    var r := Reserve(s.(nextToken := t + 1), t, mode).value;
    SamePromise(s, r);
    if s.detachment.Some? {
      var w := Wait(r, t, mode, AwaitDetachment(s.detachment.value));
      SamePromise(r, w);
      DetachedGetsHandle(w, t, mode);
    } else {
      UndetachedGetsHandle(r, t, mode);
    }
  }

  // What is sent

  lemma AfterReconciliationSends(s: Slot, t: Token, mode: Mode, reconciled: bool)
    ensures var u := AfterReconciliation(s, t, mode, reconciled);
            || u.requests == s.requests
            || (u.requests == s.requests + [Request(AttachCommand, if s.connected then None else Some(false))]
                && (reconciled || !s.attached))
  {
  }

  lemma AfterDetachmentSends(s: Slot, t: Token, mode: Mode)
    ensures var (u, answer) := (AfterDetachment(s, t, mode), if s.connected then None else Some(false));
            || u.requests == s.requests
            || (u.requests == s.requests + [Request(AttachCommand, answer)] && !s.cleanupRequired && !s.attached)
            || (u.requests == s.requests + [Request(DetachCommand, answer)] && s.cleanupRequired)
  {
    hide AfterReconciliation;
    AfterReconciliationSends(s, t, mode, false);
  }

  /** What an acquisition may send first: an attach only when no detach is running and none is to be made up for. */
  lemma AcquireSendsOnlyWhenClean(s: Slot, mode: Mode)
    ensures var (u, answer) := (AcquireSession(s, mode), if s.connected then None else Some(false));
            || u.requests == s.requests
            || (s.detachment.None? && u.requests == s.requests + [Request(AttachCommand, answer)]
                && !s.cleanupRequired && !s.attached)
            || (s.detachment.None? && u.requests == s.requests + [Request(DetachCommand, answer)] && s.cleanupRequired)
  {
    hide AfterDetachment;
    var r := Reserve(s.(nextToken := s.nextToken + 1), s.nextToken, mode);
    if r.Some? {
      AfterDetachmentSends(r.value, s.nextToken, mode);
    }
  }

  /** And later: once it is reconciled, or the detach is over and none is to be made up for. */
  lemma ContinuationSendsOnlyWhenClean(s: Slot, t: Token)
    requires Enabled(s, ResumeAcquire(t))
    ensures var (u, a) := (ContinueAcquire(s, t), s.acquisitions[t]);
            var answer := if s.connected then None else Some(false);
            || u.requests == s.requests
            || (u.requests == s.requests + [Request(AttachCommand, answer)]
                && ((a.stage.AwaitDetachment? && !s.cleanupRequired && !s.attached)
                    || (a.stage.AwaitReconciliation? && Succeeded(s, a.stage.request))))
            || (u.requests == s.requests + [Request(DetachCommand, answer)] && a.stage.AwaitDetachment?
                && s.cleanupRequired)
  {
    hide AfterDetachment, AfterReconciliation;
    var v := s.(acquisitions := s.acquisitions - {t});
    AfterDetachmentSends(v, t, s.acquisitions[t].mode);
    AfterReconciliationSends(v, t, s.acquisitions[t].mode, true);
  }

  /** A release in use detaches on the server exactly if it is the only holder, and otherwise gives its lease back. */
  lemma ReleaseExactly(s: Slot, t: Token, relinquish: bool)
    requires Right(s) && t in s.handles
    ensures var s' := ReleaseHandle(s, t, relinquish);
            if !s.connected || !IsActive(s, t) then s' == s
            else if Holders(s).Keys == {t}
            then s'.handles[t].phase == Releasing(|s.requests|, relinquish) && s'.detachment == Some(|s.requests|)
                 && s'.requests == s.requests + [Request(DetachCommand, None)] && s'.count == s.count
            else s'.handles[t].phase.Released? && s'.count == s.count - 1 && s'.requests == s.requests
  {
    if IsActive(s, t) && t !in s.acquisitions {
      assert Holder(s, t).Some? && t in Holders(s);
      if |Holders(s)| == 1 {
        OnlyKey(Holders(s).Keys, t);
      }
    }
  }

  lemma OnlyKey(keys: set<Token>, t: Token)
    requires t in keys && |keys| == 1
    ensures keys == {t}
  {
    assert |keys - {t}| == 0;
  }

  /**
   * A release that ends has given the handle up, unless its detach failed while the handle was still alive and it
   * was not to be given up in any case; then the handle is in use again. Only a live handle given up after a
   * failure leaves a detach to be made up for.
   */
  lemma ReleaseEndsExactly(s: Slot, t: Token)
    requires Right(s) && Enabled(s, ResumeRelease(t))
    ensures var (phase, s') := (s.handles[t].phase, ContinueRelease(s, t));
            var kept := Rejected(s, phase.request) && Live(s, t) && !phase.relinquish;
            && s'.handles[t].phase == (if kept then Active else Released)
            && s'.count == (if Live(s, t) && !kept then s.count - 1 else s.count)
            && (s'.cleanupRequired <==>
                  s.cleanupRequired || (Rejected(s, phase.request) && Live(s, t) && phase.relinquish))
            && s'.detachment == (if s.detachment == Some(phase.request) then None else s.detachment)
  {
    if Live(s, t) {
      LiveIsCounted(s, t);
    }
    hide Right;
    match s.handles[t].phase
    case Releasing(q, relinquish) =>
      if Succeeded(s, q) {
      } else if !Live(s, t) {
      }
  }

  lemma LiveIsCounted(s: Slot, t: Token)
    requires Right(s) && Live(s, t)
    ensures s.count >= 1
  {
    assert t in s.acquisitions || Holder(s, t).Some?;
    assert t in Holders(s);
  }

  /** A response settles its own request; the session is attached or not as the last successful one says. */
  lemma ResponseExactly(s: Slot, q: RequestId, ok: bool, attached: bool)
    requires Enabled(s, Respond(q, ok, attached))
    ensures var s' := Apply(s, Respond(q, ok, attached));
            && (if ok then Succeeded(s', q) else Rejected(s', q))
            && (forall p :: p != q && 0 <= p < |s.requests| ==> s'.requests[p] == s.requests[p])
            && (s'.attached <==>
                  if ok then s.requests[q].command.AttachCommand? && attached else s.attached)
            && (s'.cleanupRequired <==> s.cleanupRequired && !(ok && s.reconciliation == Some(q)))
            && s'.reconciliation == (if s.reconciliation == Some(q) then None else s.reconciliation)
            && s'.handles == s.handles && s'.acquisitions == s.acquisitions && s'.count == s.count
  {
  }

  /** What the server last said of the session decides whether it is attached; removals and losses detach it. */
  lemma AttachedFollows(s: Slot, e: Event)
    requires Enabled(s, e)
    ensures Apply(s, e).attached <==>
              if e.SnapshotEvent? || e.Created? then e.attached
              else if e.Respond? && e.ok then s.requests[e.request].command.AttachCommand? && e.attached
              else s.attached && !e.SessionRemoved? && !e.Disconnect? && !e.Reconnect?
  {
    hide AfterDetachment, AfterReconciliation, Settle;
    match e
    case Acquire(mode) =>
      var r := Reserve(s.(nextToken := s.nextToken + 1), s.nextToken, mode);
      if r.Some? {
        SameAttached(r.value, s.nextToken, mode);
      }
    case ResumeAcquire(t) => SameAttached(s.(acquisitions := s.acquisitions - {t}), t, s.acquisitions[t].mode);
    case Respond(q, ok, attached) => ResponseExactly(s, q, ok, attached);
    case _ =>
  }

  lemma SameAttached(s: Slot, t: Token, mode: Mode)
    ensures AfterDetachment(s, t, mode).attached == s.attached
    ensures forall reconciled :: AfterReconciliation(s, t, mode, reconciled).attached == s.attached
  {
    forall reconciled ensures AfterReconciliation(s, t, mode, reconciled).attached == s.attached {
      AttachSameAttached(s, t, mode, reconciled);
    }
    hide AfterReconciliation;
  }

  lemma AttachSameAttached(s: Slot, t: Token, mode: Mode, reconciled: bool)
    ensures AfterReconciliation(s, t, mode, reconciled).attached == s.attached
  {
  }

  /** A handle is active as long as it is in use, of the current generation, and its session is attached. */
  lemma ActiveExactly(s: Slot, t: Token)
    ensures IsActive(s, t) <==>
              t in s.handles && s.handles[t] == Handle(s.handles[t].mode, s.generation, Active) && s.attached
  {
  }
}
