/** How handshakes end: what a first hello leads to, and that a connection whose protocol has failed is done for. */
module HandshakeOutcomes {
  import opened Common
  import opened HandshakeProtocol
  import opened HandshakeSafety

  /** Nothing will ever be put on the connection again, and it will not become ready. */
  predicate IsOver(k: Conn) {
    (k.stage.Closing? || k.stage.Closed?) && (k.closed || k.disconnected)
  }

  lemma OverStep(s: State, e: Event, c: ConnId)
    requires Inv(s) && Enabled(s, e) && c in s.conns && IsOver(s.conns[c])
    ensures c in Apply(s, e).conns && IsOver(Apply(s, e).conns[c])
    ensures Apply(s, e).conns[c].outbox == s.conns[c].outbox
  {
    assert ConnInv(s, c);
    hide Inv, ConnInv, ShapeOk;
    match e
    case Gathered(_, _, _) =>
    case HelloSent(_, _) =>
    case CaughtUp(_, _, _) =>
    case ProtocolFailure(_, _) =>
    case SendSnapshot(_) =>
    case _ =>
  }

  lemma {:induction false} OverForGood(states: seq<State>, events: seq<Event>, i: nat, n: nat, c: ConnId)
    requires Execution(states, events) && i <= n <= |events| && c in states[i].conns && IsOver(states[i].conns[c])
    ensures c in states[n].conns && IsOver(states[n].conns[c])
    ensures states[n].conns[c].outbox == states[i].conns[c].outbox
  {
    hide Apply, Enabled, Inv, IsOver;
    if i < n {
      OverForGood(states, events, i, n - 1, c);
      ExecutionKeepsInv(states, events, n - 1);
      OverStep(states[n - 1], events[n - 1], c);
      assert states[n] == Apply(states[n - 1], events[n - 1]);
    }
  }

  lemma ClosedStep(s: State, e: Event, c: ConnId)
    requires Enabled(s, e) && c in s.conns && s.conns[c].closed
    ensures c in Apply(s, e).conns && Apply(s, e).conns[c].closed
    ensures Apply(s, e).conns[c].outbox == s.conns[c].outbox
  {
  }

  /** Once its transport has closed a connection is sent nothing more. */
  lemma {:induction false} ClosedForGood(states: seq<State>, events: seq<Event>, i: nat, n: nat, c: ConnId)
    requires Execution(states, events) && i < n <= |events| && events[i] == TransportCloses(c)
    ensures c in states[i].conns && c in states[n].conns && states[n].conns[c].closed
    ensures states[n].conns[c].outbox == states[i].conns[c].outbox
  {
    hide Apply, Enabled;
    var (s, e) := (states[n - 1], events[n - 1]);
    assert Enabled(s, e) && states[n] == Apply(s, e);
    if i < n - 1 {
      ClosedForGood(states, events, i, n - 1, c);
      ClosedStep(s, e, c);
    } else {
      CloseStep(s, c);
    }
  }

  lemma CloseStep(s: State, c: ConnId)
    requires Enabled(s, TransportCloses(c))
    ensures c in s.conns && Apply(s, TransportCloses(c)) == s.(conns := s.conns[c := s.conns[c].(closed := true)])
  {
  }

  /**
   * A client with an unsupported version is told so, once and for all: whatever happens afterwards, the refusal is
   * the one message on its connection, if that was open, and the connection never becomes ready.
   */
  lemma UnsupportedIsRefused(states: seq<State>, events: seq<Event>, i: nat, n: nat, c: ConnId)
    requires Execution(states, events) && i < n <= |events| && events[i] == ClientHello(c, false)
    ensures c in states[i].conns && c in states[n].conns && !states[n].conns[c].stage.Ready?
    ensures states[n].conns[c].outbox == if states[i].conns[c].closed then [] else [HelloError]
  {
    hide Inv;
    ExecutionKeepsInv(states, events, i);
    RefusalStep(states[i], c);
    assert states[i + 1] == Apply(states[i], events[i]);
    OverForGood(states, events, i + 1, n, c);
  }

  lemma RefusalStep(s: State, c: ConnId)
    requires Inv(s) && Enabled(s, ClientHello(c, false))
    ensures var k := Apply(s, ClientHello(c, false)).conns[c];
            IsOver(k) && k.outbox == if s.conns[c].closed then [] else [HelloError]
  {
    assert ConnInv(s, c);
    assert s.conns[c].outbox == [];
  }

  /** So is a client whose protocol has failed: the error is the last message, and only unsent ones are given up. */
  lemma FailureIsFinal(states: seq<State>, events: seq<Event>, i: nat, n: nat, c: ConnId, kept: nat)
    requires Execution(states, events) && i < n <= |events| && events[i] == ProtocolFailure(c, kept)
    requires !Terminal(states[i].conns[c])
    ensures c in states[n].conns && !states[n].conns[c].stage.Ready?
    ensures var k := states[i].conns[c];
            && kept <= |k.outbox|
            && states[n].conns[c].outbox == if k.closed then k.outbox else k.outbox[..kept] + [HelloError]
  {
    hide Inv;
    ExecutionKeepsInv(states, events, i);
    FailureStep(states[i], c, kept);
    assert states[i + 1] == Apply(states[i], events[i]);
    OverForGood(states, events, i + 1, n, c);
  }

  lemma FailureStep(s: State, c: ConnId, kept: nat)
    requires Inv(s) && Enabled(s, ProtocolFailure(c, kept)) && !Terminal(s.conns[c])
    ensures var (k, k') := (s.conns[c], Apply(s, ProtocolFailure(c, kept)).conns[c]);
            && (k'.stage.Closing? && k'.closed && k'.wait == k.wait)
            && k'.outbox == if k.closed then k.outbox else k.outbox[..kept] + [HelloError]
  {
  }

  /** A connection that was disconnected, or stopped when the server closed, keeps its outbox as it was. */
  lemma EndIsFinal(states: seq<State>, events: seq<Event>, i: nat, n: nat, c: ConnId)
    requires Execution(states, events) && i < n <= |events|
    requires events[i] == Disconnect(c) || events[i] == StopConnection(c)
    ensures c in states[i].conns && c in states[n].conns && !states[n].conns[c].stage.Ready?
    ensures states[n].conns[c].outbox == states[i].conns[c].outbox
  {
    hide Inv;
    EndStep(states[i], events[i], c);
    assert states[i + 1] == Apply(states[i], events[i]);
    OverForGood(states, events, i + 1, n, c);
  }

  lemma EndStep(s: State, e: Event, c: ConnId)
    requires Enabled(s, e) && (e == Disconnect(c) || e == StopConnection(c))
    ensures IsOver(Apply(s, e).conns[c]) && Apply(s, e).conns[c].outbox == s.conns[c].outbox
  {
  }

  /**
   * A supported first hello is not refused: the connection waits for a snapshot of the server's current revision.
   * Undisturbed it is then sent a hello with that revision and becomes ready, and catches up exactly if the
   * revision has moved meanwhile.
   */
  lemma SupportedIsServed(s: State, c: ConnId, fits: bool, current: Revision)
    requires Inv(s) && Enabled(s, ClientHello(c, true)) && !s.conns[c].closed
    ensures var k := Apply(s, ClientHello(c, true)).conns[c];
            && k.stage.Handshaking? && !k.closed && k.outbox == [] && k.wait == Gathering(s.revision)
            && OnGathered(k, true, true, false).outbox == [Hello(s.revision)]
            && OnGathered(k, true, true, false).wait == SendingHello(s.revision)
            && var ready := OnHelloSent(OnGathered(k, true, true, false), true, current);
               && ready.stage.Ready? && ready.handshakeComplete && ready.outbox == [Hello(s.revision)]
               && ready.wait == if current == s.revision then NoWait else CatchingUp(current)
  {
    assert ConnInv(s, c);
  }

  /** The hello is put on the connection exactly when there is a snapshot and nothing has come between. */
  lemma HelloExactly(s: State, c: ConnId, ok: bool, fits: bool)
    requires Inv(s) && Enabled(s, Gathered(c, ok, fits))
    ensures var (k, k') := (s.conns[c], Apply(s, Gathered(c, ok, fits)).conns[c]);
            var undisturbed := !s.closing && !k.disconnected && k.stage.Handshaking? && !k.closed;
            && (k'.outbox == [Hello(k.wait.revision)] && k.outbox == [] <==> ok && undisturbed && fits)
            && (k'.wait.SendingHello? <==> ok && undisturbed)
            && (ok && undisturbed && !fits ==> k'.closed && k'.outbox == [])
            && (!ok && !Terminal(k) && !k.closed ==> k'.outbox == [HelloError] && k'.stage.Closing?)
            && (ok && !undisturbed ==> k' == k.(wait := NoWait))
  {
    assert ConnInv(s, c);
    var k := s.conns[c];
    assert k.stage.Handshaking? ==> k.outbox == [];
    assert k.outbox == [] ==> k.outbox + [HelloError] == [HelloError];
  }

  /** A connection becomes ready exactly when its hello has been sent and its handshake is still going on. */
  lemma ReadyExactly(s: State, e: Event, c: ConnId)
    requires Enabled(s, e) && c in s.conns && !s.conns[c].stage.Ready?
    ensures Apply(s, e).conns[c].stage.Ready? <==>
            e == HelloSent(c, true) && s.conns[c].stage.Handshaking? && !s.conns[c].disconnected
  {
    match e
    case ClientHello(_, _) =>
    case Gathered(_, _, _) =>
    case HelloSent(_, _) =>
    case CaughtUp(_, _, _) =>
    case SendSnapshot(_) =>
    case _ =>
  }

  /** What is sent to a connection that is open is appended if it fits and closes the transport if not. */
  predicate Sent(k: Conn, k': Conn, m: Message, fits: bool) {
    if k.disconnected || k.closed then k'.outbox == k.outbox && k'.closed == k.closed
    else if fits then k'.outbox == k.outbox + [m] && !k'.closed
    else k'.outbox == k.outbox && k'.closed
  }

  lemma SendsExactly(s: State, e: Event)
    requires Enabled(s, e) && (e.SendOther? || e.SendSnapshot? || (e.CaughtUp? && e.ok))
    ensures var c := if e.SendSnapshot? then s.running.value.targets[0] else e.c;
            var m := if e.SendOther? then Other
                     else if e.CaughtUp? then Snapshot(s.conns[c].wait.revision)
                     else Snapshot(s.running.value.revision);
            && Sent(s.conns[c], Apply(s, e).conns[c], m, e.fits)
            && forall d <- s.conns :: d != c ==> Apply(s, e).conns[d] == s.conns[d]
  {
  }

  /** Messages in another order than hello first fail the protocol: DispatchMessage leads to a refusal. */
  lemma OutOfOrderIsRefused(k: Conn)
    requires ConnOk(k) && !Terminal(k) && !k.closed
    ensures var k' := Fail(k, |k.outbox|);
            IsOver(k') && k'.outbox == k.outbox + [HelloError]
  {
  }

  /** A revision is taken exactly by a broadcast that has somebody to reach while the server is not closing. */
  lemma RevisionMovesExactly(s: State, e: Event)
    requires Enabled(s, e)
    ensures var s' := Apply(s, e);
            if e.StartBroadcast? && e.targets != [] && !s.closing
            then s'.revision == s.revision + 1 && s'.running == Some(Broadcast(s'.revision, e.targets, false))
            else s'.revision == s.revision
    ensures Apply(s, e).queued == if e.RequestBroadcast? then s.queued + 1
                                  else if e.StartBroadcast? then s.queued - 1 else s.queued
    ensures Apply(s, e).closing <==> s.closing || e.BeginClose?
  {
  }

  /** A server that closes takes no new connection and no new revision. */
  lemma {:induction false} ClosingForGood(states: seq<State>, events: seq<Event>, i: nat, n: nat)
    requires Execution(states, events) && i < n <= |events| && events[i].BeginClose?
    ensures states[n].closing && states[n].revision == states[i].revision
    ensures states[n].conns.Keys == states[i].conns.Keys
  {
    hide Apply, Enabled;
    var (s, e) := (states[n - 1], events[n - 1]);
    assert Enabled(s, e) && states[n] == Apply(s, e);
    RevisionMovesExactly(s, e);
    if i < n - 1 {
      ClosingForGood(states, events, i, n - 1);
    }
    SameKeys(s, e);
  }

  lemma SameKeys(s: State, e: Event)
    requires Enabled(s, e) && (s.closing || e.BeginClose?)
    ensures Apply(s, e).conns.Keys == s.conns.Keys
  {
  }
}
