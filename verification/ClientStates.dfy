/** The snapshots a client holds, and the sessions it is attached to, updated in place. */
module ClientStates {
  import opened Common
  import opened HandshakeProtocol
  import opened HandshakeSafety

  type SessionId = string

  datatype SessionSnapshot = SessionSnapshot(id: SessionId, revision: nat, attached: bool)

  class ClientState {
    var snapshot: Option<Revision>
    var sessionSnapshots: map<SessionId, SessionSnapshot>
    var attachedSessionIds: set<SessionId>

    /** A session the client is attached to is one whose snapshot says so. */
    ghost predicate Valid()
      reads this
    {
      && (forall id <- sessionSnapshots :: sessionSnapshots[id].id == id)
      && (forall id <- attachedSessionIds :: id in sessionSnapshots && sessionSnapshots[id].attached)
    }

    constructor ()
      ensures Valid() && snapshot == None && sessionSnapshots == map[]
    {
      snapshot, sessionSnapshots, attachedSessionIds := None, map[], {};
    }

    method Reset()
      modifies this
      ensures Valid() && snapshot == None && sessionSnapshots == map[] && attachedSessionIds == {}
    {
      snapshot, sessionSnapshots, attachedSessionIds := None, map[], {};
    }

    /** After a disconnect the snapshots stay, but no session is attached. */
    method ClearAttachments()
      requires Valid()
      modifies this`attachedSessionIds
      ensures Valid() && attachedSessionIds == {}
    {
      attachedSessionIds := {};
    }

    method ApplyServerSnapshot(revision: Revision)
      modifies this`snapshot
      ensures snapshot == Some(if old(snapshot).Some? && revision < old(snapshot).value then old(snapshot).value
                               else revision)
    {
      if snapshot.Some? && revision < snapshot.value {
        return;
      }
      snapshot := Some(revision);
    }

    /** Only a detach may put an older snapshot in place of a newer one; attachment follows what is accepted. */
    method ApplySessionSnapshot(s: SessionSnapshot, force: bool) returns (accepted: bool)
      requires Valid()
      modifies this`sessionSnapshots, this`attachedSessionIds
      ensures Valid()
      ensures accepted <==>
              force || s.id !in old(sessionSnapshots) || old(sessionSnapshots)[s.id].revision <= s.revision
      ensures sessionSnapshots == if accepted then old(sessionSnapshots)[s.id := s] else old(sessionSnapshots)
      ensures forall id :: id in attachedSessionIds <==>
              if accepted && id == s.id then s.attached else id in old(attachedSessionIds)
    {
      if !force && s.id in sessionSnapshots && s.revision < sessionSnapshots[s.id].revision {
        return false;
      }
      sessionSnapshots := sessionSnapshots[s.id := s];
      attachedSessionIds := if s.attached then attachedSessionIds + {s.id} else attachedSessionIds - {s.id};
      return true;
    }

    /** The result of a detach. */
    method ApplyDetached(id: SessionId)
      requires Valid()
      modifies this`sessionSnapshots, this`attachedSessionIds
      ensures Valid() && attachedSessionIds == old(attachedSessionIds) - {id}
      ensures sessionSnapshots.Keys == old(sessionSnapshots).Keys
      ensures forall other <- sessionSnapshots ::
                var before := old(sessionSnapshots)[other];
                sessionSnapshots[other] == if other == id then before.(attached := false) else before
    {
      attachedSessionIds := attachedSessionIds - {id};
      if id in sessionSnapshots {
        var _ := ApplySessionSnapshot(sessionSnapshots[id].(attached := false), true);
      }
    }

    method RemoveSession(id: SessionId)
      requires Valid()
      modifies this`sessionSnapshots, this`attachedSessionIds
      ensures Valid() && sessionSnapshots == old(sessionSnapshots) - {id}
              && attachedSessionIds == old(attachedSessionIds) - {id}
    {
      sessionSnapshots, attachedSessionIds := sessionSnapshots - {id}, attachedSessionIds - {id};
    }

    /** Before an attach the old snapshot is set aside, so that one of any revision is accepted after it. */
    method ForgetSessionSnapshot(id: SessionId) returns (previous: Option<SessionSnapshot>)
      requires Valid() && id !in attachedSessionIds
      modifies this`sessionSnapshots
      ensures Valid() && sessionSnapshots == old(sessionSnapshots) - {id}
      ensures previous == if id in old(sessionSnapshots) then Some(old(sessionSnapshots)[id]) else None
    {
      previous := if id in sessionSnapshots then Some(sessionSnapshots[id]) else None;
      sessionSnapshots := sessionSnapshots - {id};
    }

    /** After a failed attach it is put back, unless a newer one has arrived. */
    method RestoreSessionSnapshot(previous: SessionSnapshot)
      requires Valid()
      modifies this`sessionSnapshots
      ensures Valid()
      ensures sessionSnapshots == if previous.id in old(sessionSnapshots) then old(sessionSnapshots)
              else old(sessionSnapshots)[previous.id := previous]
    {
      if previous.id !in sessionSnapshots {
        sessionSnapshots := sessionSnapshots[previous.id := previous];
      }
    }

    /** Whatever the order in which server snapshots arrive, the one held has the highest revision received. */
    method ReceiveAll(messages: seq<Message>)
      requires snapshot == None
      modifies this`snapshot
      ensures snapshot == if Highest(messages) < 0 then None else Some(Highest(messages))
    {
      assert messages[..0] == [];
      for i := 0 to |messages|
        invariant snapshot == if Highest(messages[..i]) < 0 then None else Some(Highest(messages[..i]))
      {
        HighestAppend(messages[..i], messages[i]);
        assert messages[..i + 1] == messages[..i] + [messages[i]];
        match messages[i]
        case Hello(revision) => ApplyServerSnapshot(revision);
        case Snapshot(revision) => ApplyServerSnapshot(revision);
        case _ =>
      }
      assert messages[..|messages|] == messages;
    }
  }

  /** Highest is what it is called: the revision of some message, and none is higher. */
  lemma {:induction false} HighestIsMaximum(messages: seq<Message>)
    ensures forall m <- messages :: m.Hello? || m.Snapshot? ==> m.revision <= Highest(messages)
    ensures Highest(messages) >= 0 ==>
            exists m <- messages :: (m.Hello? || m.Snapshot?) && m.revision == Highest(messages)
  {
    if messages != [] {
      var n := |messages| - 1;
      HighestIsMaximum(messages[..n]);
      HighestAppend(messages[..n], messages[n]);
      assert messages == messages[..n] + [messages[n]];
      assert forall m <- messages[..n] :: m in messages;
    }
  }
}
