/** What a client makes of the messages of one connection, in every run of the server. */
module HandshakeTheorems {
  import opened Common
  import opened HandshakeProtocol
  import opened HandshakeSafety
  import Client = RequestProtocol

  /** On every connection the first message is a hello or its refusal, and no second hello follows. */
  lemma HelloComesFirst(states: seq<State>, events: seq<Event>, n: nat, c: ConnId, i: nat)
    requires Execution(states, events) && n <= |events| && c in states[n].conns && i < |states[n].conns[c].outbox|
    ensures var outbox := states[n].conns[c].outbox;
            && (outbox[0].Hello? || outbox == [HelloError])
            && (i > 0 ==> !outbox[i].Hello?)
  {
    ExecutionKeepsInv(states, events, n);
    assert ConnInv(states[n], c);
  }

  /** How the client sees a message, if every response answers a request of its own. */
  function Received(m: Message): Client.ServerMessage {
    match m
    case Hello(_) => Client.Hello
    case HelloError => Client.HelloError
    case _ => Client.EventMessage
  }

  function ReceivedAll(messages: seq<Message>): (r: seq<Client.ServerMessage>)
    ensures |r| == |messages| && forall i :: 0 <= i < |r| ==> r[i] == Received(messages[i])
  {
    seq(|messages|, i requires 0 <= i < |messages| => Received(messages[i]))
  }

  lemma {:induction false} EventsKeepConnected(s: Client.State, messages: seq<Client.ServerMessage>)
    requires s.lifecycle.Connected? && forall m <- messages :: m.EventMessage?
    ensures Client.HandleMessages(s, messages) == s
    decreases |messages|
  {
    if messages != [] {
      assert messages[0].EventMessage?;
      EventsKeepConnected(s, messages[1..]);
    }
  }

  /**
   * A client that has sent its hello and is given what the server puts on the connection, in order, accepts the
   * first message; it stays connected for as long as the server reports no protocol error.
   */
  lemma ClientStaysConnected(states: seq<State>, events: seq<Event>, n: nat, c: ConnId, k: nat, s: Client.State)
    requires Execution(states, events) && n <= |events| && c in states[n].conns
    requires 0 < k <= |states[n].conns[c].outbox| && s.lifecycle.Connecting? && s.lifecycle.open
    ensures var heard := states[n].conns[c].outbox[..k];
            var s' := Client.HandleMessages(s, ReceivedAll(heard));
            && (heard[0].Hello? && (forall m <- heard :: !m.HelloError?) ==>
                s'.lifecycle == Client.Connected(s.lifecycle.id))
            && (!heard[0].Hello? ==> heard == [HelloError] && s'.lifecycle.Disconnected?)
  {
    ExecutionKeepsInv(states, events, n);
    assert ConnInv(states[n], c);
    var heard := states[n].conns[c].outbox[..k];
    var all := ReceivedAll(heard);
    if heard[0].Hello? && forall m <- heard :: !m.HelloError? {
      forall i | 0 < i < k ensures all[i].EventMessage? {
        assert heard[i] in heard;
      }
      EventsKeepConnected(Client.HandleMessage(s, all[0]), all[1..]);
    }
  }

  /** Nothing is under way for the connection, and its client is listening. */
  predicate Settled(s: State, c: ConnId)
    requires c in s.conns
  {
    var k := s.conns[c];
    k.stage.Ready? && !k.disconnected && !k.closed && k.wait.NoWait? && s.running.None?
  }

  /**
   * The last revision reaches everyone: once nothing is under way, a client has been sent the current revision
   * exactly unless the broadcast of just that revision failed and the client was one of its targets.
   */
  lemma CurrentRevisionArrives(states: seq<State>, events: seq<Event>, n: nat, c: ConnId)
    requires Execution(states, events) && n <= |events| && c in states[n].conns && Settled(states[n], c)
    ensures var s := states[n];
            Highest(s.conns[c].outbox) == s.revision <==> !(s.failed == Some(s.revision) && c in s.missed)
  {
    hide Highest, ConnOk;
    ExecutionKeepsInv(states, events, n);
    assert ConnInv(states[n], c);
  }

  ghost predicate Reachable(s: State) {
    exists states, events :: Execution(states, events) && s == states[|events|]
  }

  lemma Extend(s: State, e: Event, s': State)
    requires Reachable(s) && Enabled(s, e) && s' == Apply(s, e)
    ensures Reachable(s')
  {
    hide Apply, Enabled;
    var states, events :| Execution(states, events) && s == states[|events|];
    assert Execution(states + [s'], events + [e]);
    assert (states + [s'])[|events + [e]|] == s';
  }

  const WAITING := Conn(Handshaking, false, false, false, Gathering(0), [])
  const GREETED := Conn(Handshaking, false, false, false, SendingHello(0), [Hello(0)])
  const READY := Conn(Ready, false, false, true, NoWait, [Hello(0)])

  lemma Greets()
    ensures Reachable(INITIAL.(conns := map[0 := GREETED]))
  {
    assert Execution([INITIAL], []);
    assert Reachable(INITIAL);
    var (s, t) := (INITIAL.(conns := map[0 := ACCEPTED]), INITIAL.(conns := map[0 := WAITING]));
    Extend(INITIAL, Accept(0), s);
    assert s.conns[0 := WAITING] == t.conns;
    Extend(s, ClientHello(0, true), t);
    assert OnGathered(WAITING, true, true, false) == GREETED;
    assert t.conns[0 := GREETED] == map[0 := GREETED];
    Extend(t, Gathered(0, true, true), INITIAL.(conns := map[0 := GREETED]));
  }

  const LISTENING := INITIAL.(conns := map[0 := READY])

  lemma BecomesReady()
    ensures Reachable(LISTENING) && Reachable(LISTENING.(queued := 1))
  {
    Greets();
    var s := INITIAL.(conns := map[0 := GREETED]);
    assert s.conns[0 := READY] == LISTENING.conns;
    Extend(s, HelloSent(0, true), LISTENING);
    Extend(LISTENING, RequestBroadcast, LISTENING.(queued := 1));
  }

  lemma BroadcastBegins()
    ensures Reachable(LISTENING.(revision := 1, running := Some(Broadcast(1, [0], false))))
  {
    BecomesReady();
    var s := LISTENING.(queued := 1);
    var targets: seq<ConnId> := [0];
    assert forall c :: c in targets <==> c in s.conns && IsTarget(s.conns[c]);
    Extend(s, StartBroadcast(targets), LISTENING.(revision := 1, running := Some(Broadcast(1, targets, false))));
  }

  const MISSED := LISTENING.(revision := 1, failed := Some(1), missed := {0})

  /** The exception occurs: when a broadcast fails, its revision has passed and a ready client never hears of it. */
  lemma FailedBroadcastIsMissed()
    ensures Reachable(MISSED) && Settled(MISSED, 0) && Highest(MISSED.conns[0].outbox) == 0
  {
    BroadcastBegins();
    var s := LISTENING.(revision := 1, running := Some(Broadcast(1, [0], false)));
    assert (set c | c in s.running.value.targets) == {0};
    Extend(s, BroadcastGathered(false), MISSED);
    assert READY.outbox[..0] == [];
  }
}
