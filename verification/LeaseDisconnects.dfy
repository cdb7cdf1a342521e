/**
 * The condition on disconnects is needed too. A chunk may answer a request and, with its next message, end
 * the connection; the continuation of the answer then runs after the tables were emptied.
 */
module LeaseDisconnects {
  import opened Common
  import opened LeaseProtocol
  import opened LeaseTheorems
  import opened LeaseRemovals

  const UNANSWERED := Request(AttachCommand, None)
  const REJECTED := Request(AttachCommand, Some(false))

  const ASKED := CONNECTED.(
    count := 1, exclusive := Some(0), attachment := Some(0), requests := [UNANSWERED],
    acquisitions := map[0 := Acquisition(Exclusive, AwaitAttachment(0))], nextToken := 1)
  const ANSWERED := ASKED.(attached := true, requests := [DONE])
  const LOST := ANSWERED.(connected := false, attached := false, count := 0, exclusive := None, generation := 1)

  /** The attach succeeds and the connection ends before the acquisition goes on. */
  lemma AnswerThenLoss()
    ensures Reachable(ANSWERED) && Granted(ANSWERED, 0) && !CalmLoss(ANSWERED)
    ensures Reachable(LOST)
  {
    Connects();
    Extend(CONNECTED, Acquire(Exclusive), ASKED);
    Extend(ASKED, Respond(0, true, true), ANSWERED);
    assert 0 in ANSWERED.acquisitions;
    Extend(ANSWERED, Disconnect, LOST);
  }

  const REVIVED := LOST.(
    attachment := None, acquisitions := map[], handles := map[0 := Handle(Exclusive, 1, Active)])

  /** The acquisition then creates a handle of the new generation, which nothing counts and nothing ends. */
  lemma GrantAfterLoss()
    ensures Reachable(REVIVED.(connected := true)) && Live(REVIVED, 0) && REVIVED.count == 0
  {
    AnswerThenLoss();
    assert LOST.acquisitions - {0} == map[];
    Extend(LOST, ResumeAcquire(0), REVIVED);
    Extend(REVIVED, Reconnect, REVIVED.(connected := true));
  }

  const ASKED_AGAIN := REVIVED.(
    connected := true, count := 1, exclusive := Some(1), attachment := Some(1), requests := [DONE, UNANSWERED],
    acquisitions := map[1 := Acquisition(Exclusive, AwaitAttachment(1))], nextToken := 2)
  const BOTH := ASKED_AGAIN.(
    attached := true, attachment := None, requests := [DONE, DONE], acquisitions := map[],
    handles := map[0 := Handle(Exclusive, 1, Active), 1 := Handle(Exclusive, 1, Active)])

  /** After the next attach two exclusive handles are active, and one lease is counted. */
  lemma TwoExclusiveHandlesAfterLoss()
    ensures Reachable(BOTH) && BOTH.count == 1
    ensures IsActive(BOTH, 0) && IsActive(BOTH, 1)
    ensures BOTH.handles[0].mode.Exclusive? && BOTH.handles[1].mode.Exclusive?
  {
    GrantAfterLoss();
    Extend(REVIVED.(connected := true), Acquire(Exclusive), ASKED_AGAIN);
    AnsweredAgain();
  }

  lemma AnsweredAgain()
    requires Reachable(ASKED_AGAIN)
    ensures Reachable(BOTH)
  {
    var s := ASKED_AGAIN.(attached := true, requests := [DONE, DONE]);
    Extend(ASKED_AGAIN, Respond(1, true, true), s);
    assert s.acquisitions - {1} == map[];
    Extend(s, ResumeAcquire(1), BOTH);
  }

  // A create that is answered, with an acquisition of the same session in flight

  const SHARING := ASKED.(exclusive := None, acquisitions := map[0 := Acquisition(Shared, AwaitAttachment(0))])
  const CREATED := SHARING.(attached := true, creations := 1)
  const CREATED_LOST := CREATED.(connected := false, attached := false, count := 0, generation := 1,
                                 requests := [REJECTED])
  const LEASED := CREATED_LOST.(
    count := 1, exclusive := Some(1), creations := 0, nextToken := 2, handles := map[1 := Handle(Exclusive, 1, Active)])
  const ROBBED := LEASED.(count := 0, attachment := None, acquisitions := map[])

  lemma CreateThenLoss()
    ensures Reachable(CREATED) && !CalmLoss(CREATED) && Reachable(CREATED_LOST)
  {
    Connects();
    Extend(CONNECTED, Acquire(Shared), SHARING);
    Extend(SHARING, Created(true), CREATED);
    assert 0 in CREATED.acquisitions;
    Extend(CREATED, Disconnect, CREATED_LOST);
  }

  /** The create leases the session after the loss, and the acquisition that fails gives that lease back. */
  lemma FailureAfterLossTakesLease()
    ensures Reachable(ROBBED.(connected := true)) && Live(ROBBED, 1) && ROBBED.count == 0
  {
    CreateThenLoss();
    Extend(CREATED_LOST, ResumeCreate, LEASED);
    assert LEASED.acquisitions - {0} == map[];
    Extend(LEASED, ResumeAcquire(0), ROBBED);
    Extend(ROBBED, Reconnect, ROBBED.(connected := true));
  }

  // A calm run in which the count falls behind for as long as nothing is connected

  ghost predicate CalmlyReachable(s: Slot) {
    exists states, events :: Execution(states, events) && Calm(states, events, |events|) && s == states[|events|]
  }

  lemma ExtendCalmly(s: Slot, e: Event, s': Slot)
    requires CalmlyReachable(s) && Enabled(s, e) && CalmStep(s, e) && s' == Apply(s, e)
    ensures CalmlyReachable(s')
  {
    hide Apply, Enabled, CalmStep;
    var states, events :| Execution(states, events) && Calm(states, events, |events|) && s == states[|events|];
    var (longer, more) := (states + [s'], events + [e]);
    assert Execution(longer, more) && longer[|more|] == s';
    forall i | 0 <= i < |more| ensures CalmStep(longer[i], more[i]) {}
  }

  const FAILING := SHARING.(connected := false, count := 0, generation := 1, requests := [REJECTED])
  const JOINED := FAILING.(
    count := 1, nextToken := 2,
    acquisitions := map[0 := Acquisition(Shared, AwaitAttachment(0)), 1 := Acquisition(Shared, AwaitAttachment(0))])
  const BEHIND := JOINED.(
    count := 0, attachment := None, acquisitions := map[1 := Acquisition(Shared, AwaitAttachment(0))])

  lemma LosesCalmly()
    ensures CalmlyReachable(FAILING)
  {
    assert Execution([INITIAL], []) && Calm([INITIAL], [], 0);
    assert CalmlyReachable(INITIAL);
    ExtendCalmly(INITIAL, Reconnect, CONNECTED);
    ExtendCalmly(CONNECTED, Acquire(Shared), SHARING);
    ExtendCalmly(SHARING, Disconnect, FAILING);
  }

  /** An acquisition made between the loss and its last continuation is in flight and not counted. */
  lemma CountFallsBehind()
    ensures CalmlyReachable(BEHIND) && !BEHIND.connected && !Drained(BEHIND)
    ensures BEHIND.count == 0 && 1 in BEHIND.acquisitions
  {
    LosesCalmly();
    ExtendCalmly(FAILING, Acquire(Shared), JOINED);
    assert JOINED.acquisitions - {0} == BEHIND.acquisitions;
    ExtendCalmly(JOINED, ResumeAcquire(0), BEHIND);
    assert Settled(BEHIND, BEHIND.acquisitions[1].stage.request);
  }
}
