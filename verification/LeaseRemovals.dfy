/**
 * The condition on removals is needed. Two runs in which session_removed arrives while an acquisition
 * or a release of the session is in flight, and what then fails.
 */
module LeaseRemovals {
  import opened Common
  import opened LeaseProtocol
  import opened LeaseSafety
  import opened LeaseTheorems

  ghost predicate Reachable(s: Slot) {
    exists states, events :: Execution(states, events) && s == states[|events|]
  }

  lemma Extend(s: Slot, e: Event, s': Slot)
    requires Reachable(s) && Enabled(s, e) && s' == Apply(s, e)
    ensures Reachable(s')
  {
    hide Apply, Enabled;
    var states, events :| Execution(states, events) && s == states[|events|];
    assert Execution(states + [s'], events + [e]);
    assert (states + [s'])[|events + [e]|] == s';
  }

  const CONNECTED := INITIAL.(connected := true)
  const DONE := Request(AttachCommand, Some(true))

  lemma Connects()
    ensures Reachable(CONNECTED)
  {
    assert Execution([INITIAL], []);
    assert Reachable(INITIAL);
    Extend(INITIAL, Reconnect, CONNECTED);
  }

  const ATTACHING := CONNECTED.(
    count := 1, attachment := Some(0), requests := [Request(AttachCommand, None)],
    acquisitions := map[0 := Acquisition(Shared, AwaitAttachment(0))], nextToken := 1)
  const UNCOUNTED := CONNECTED.(
    generation := 1, attached := true, requests := [DONE], nextToken := 1,
    handles := map[0 := Handle(Shared, 1, Active)])

  /** The removal forgets the acquisition in flight, whose handle is then alive but not counted. */
  lemma RemovalDuringAcquisition()
    ensures Reachable(ATTACHING) && !CalmRemoval(ATTACHING)
    ensures Reachable(UNCOUNTED) && IsActive(UNCOUNTED, 0) && UNCOUNTED.count == 0
  {
    Connects();
    Extend(CONNECTED, Acquire(Shared), ATTACHING);
    assert 0 in ATTACHING.acquisitions;
    var s := ATTACHING.(count := 0, generation := 1);
    Extend(ATTACHING, SessionRemoved, s);
    var t := s.(attached := true, requests := [DONE]);
    Extend(s, Respond(0, true, true), t);
    assert t.acquisitions - {0} == map[];
    Extend(t, ResumeAcquire(0), UNCOUNTED);
  }

  const AGAIN := UNCOUNTED.(
    count := 1, requests := [DONE, DONE], nextToken := 2,
    handles := map[0 := Handle(Shared, 1, Active), 1 := Handle(Shared, 1, Active)])

  lemma Reconnects()
    ensures Reachable(UNCOUNTED.(connected := false, attached := false))
    ensures Reachable(UNCOUNTED.(attached := false))
  {
    RemovalDuringAcquisition();
    var s := UNCOUNTED.(connected := false, attached := false);
    assert LoseConnection(UNCOUNTED) == s;
    Extend(UNCOUNTED, Disconnect, s);
    Extend(s, Reconnect, UNCOUNTED.(attached := false));
  }

  const REATTACHING := UNCOUNTED.(
    count := 1, attached := false, attachment := Some(1), requests := [DONE, Request(AttachCommand, None)],
    acquisitions := map[1 := Acquisition(Shared, AwaitAttachment(1))], nextToken := 2)

  lemma AttachesAgain()
    ensures Reachable(UNCOUNTED.(connected := false, attached := false)) && Reachable(REATTACHING)
  {
    Reconnects();
    Extend(UNCOUNTED.(attached := false), Acquire(Shared), REATTACHING);
  }

  /** A disconnect does not end a handle that is not counted: attaching again revives it. */
  lemma UncountedHandleOutlivesDisconnect()
    ensures Enabled(UNCOUNTED, Disconnect) && Reachable(Apply(UNCOUNTED, Disconnect))
    ensures Reachable(AGAIN) && IsActive(AGAIN, 0)
  {
    AttachesAgain();
    assert LoseConnection(UNCOUNTED) == UNCOUNTED.(connected := false, attached := false);
    var v := REATTACHING.(attached := true, requests := [DONE, DONE]);
    Extend(REATTACHING, Respond(1, true, true), v);
    assert v.acquisitions - {1} == map[];
    Extend(v, ResumeAcquire(1), AGAIN);
  }

  const DETACHED := Request(DetachCommand, Some(true))
  const RELEASING := CONNECTED.(
    count := 1, exclusive := Some(0), attached := true, detachment := Some(0), nextToken := 1,
    requests := [Request(DetachCommand, None)], handles := map[0 := Handle(Exclusive, 0, Releasing(0, false))])
  const REMOVED := RELEASING.(count := 0, exclusive := None, generation := 1, attached := false)
  const REPLACED := CONNECTED.(
    count := 1, exclusive := Some(1), generation := 1, detachment := Some(0), nextToken := 2,
    requests := [Request(DetachCommand, None)], handles := RELEASING.handles,
    acquisitions := map[1 := Acquisition(Exclusive, AwaitDetachment(0))])
  const UNDERCOUNTED := CONNECTED.(
    exclusive := Some(1), generation := 1, nextToken := 2, requests := [DETACHED],
    handles := map[0 := Handle(Exclusive, 0, Released)], acquisitions := REPLACED.acquisitions)

  lemma BeginsRelease()
    ensures Reachable(RELEASING) && !CalmRemoval(RELEASING) && Reachable(REMOVED)
  {
    Connects();
    var s := CONNECTED.(
      count := 1, exclusive := Some(0), attached := true, nextToken := 1,
      handles := map[0 := Handle(Exclusive, 0, Active)]);
    Extend(CONNECTED, Created(true), CONNECTED.(attached := true, creations := 1));
    Extend(CONNECTED.(attached := true, creations := 1), ResumeCreate, s);
    Extend(s, Release(0, false), RELEASING);
    assert RELEASING.handles[0].phase.Releasing?;
    Extend(RELEASING, SessionRemoved, REMOVED);
  }

  lemma Replaces()
    ensures Reachable(RELEASING) && !CalmRemoval(RELEASING) && Reachable(REPLACED)
  {
    BeginsRelease();
    Extend(REMOVED, Acquire(Exclusive), REPLACED);
  }

  /** A release that began before the removal ends after it and gives back the reservation of its successor. */
  lemma RemovalDuringRelease()
    ensures Reachable(RELEASING) && !CalmRemoval(RELEASING)
    ensures Reachable(UNDERCOUNTED) && UNDERCOUNTED.count == 0 && 1 in UNDERCOUNTED.acquisitions
  {
    Replaces();
    var u := REPLACED.(requests := [DETACHED]);
    Extend(REPLACED, Respond(0, true, false), u);
    Extend(u, ResumeRelease(0), UNDERCOUNTED);
  }

  const HELD := UNDERCOUNTED.(
    attached := true, requests := [DETACHED, DONE], acquisitions := map[],
    handles := UNDERCOUNTED.handles[1 := Handle(Exclusive, 1, Active)])
  const TWICE := HELD.(
    count := 1, exclusive := Some(2), nextToken := 3, handles := HELD.handles[2 := Handle(Exclusive, 1, Active)])

  /** The count then lets a second exclusive lease in beside the first. */
  lemma TwoExclusiveHandles()
    ensures Reachable(TWICE)
    ensures IsActive(TWICE, 1) && IsActive(TWICE, 2) && TWICE.handles[1].mode.Exclusive?
            && TWICE.handles[2].mode.Exclusive?
  {
    RemovalDuringRelease();
    var s := UNDERCOUNTED.(
      attachment := Some(1), requests := [DETACHED, Request(AttachCommand, None)],
      acquisitions := map[1 := Acquisition(Exclusive, AwaitAttachment(1))]);
    assert UNDERCOUNTED.acquisitions - {1} == map[];
    Extend(UNDERCOUNTED, ResumeAcquire(1), s);
    var t := s.(attached := true, requests := [DETACHED, DONE]);
    Extend(s, Respond(1, true, true), t);
    assert t.acquisitions - {1} == map[];
    Extend(t, ResumeAcquire(1), HELD);
    Extend(HELD, Acquire(Exclusive), TWICE);
  }
}
