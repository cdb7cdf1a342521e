/**
 * Requests and the connection they travel on, on the client. A call made before the handshake or after
 * dispose is rejected at once; every other call waits under its own request id for its response, for the
 * end of the connection, or for dispose.
 */
module RequestProtocol {
  import opened Common

  type RequestId = nat
  type ConnectionId = nat
  type Command = string

  datatype Lifecycle = Disconnected | Connecting(id: ConnectionId, open: bool) | Connected(id: ConnectionId)

  datatype Reply = Refused | Result(command: Command, body: string)
  datatype ServerMessage = Hello | HelloError | EventMessage | Response(id: RequestId, reply: Reply)
  datatype Outcome = Resolved(command: Command, body: string) | Rejected

  /** issued: the command of every request, by id from 1; settled: how its promise was settled. */
  datatype State = State(
    lifecycle: Lifecycle,
    sequence: ConnectionId,
    disposed: bool,
    issued: seq<Command>,
    pending: map<RequestId, Command>,
    settled: map<RequestId, Outcome>,
    handshakes: map<ConnectionId, bool>)

  datatype Event =
    | Call(command: Command, encodes: bool, sends: bool)
    | Connect
    | TransportOpened(id: ConnectionId)
    /** It fails to open or to send, reports an error, or closes. */
    | TransportLost(id: ConnectionId)
    /** None: the chunk does not decode. */
    | Data(id: ConnectionId, messages: Option<seq<ServerMessage>>)
    | Disconnect
    | Dispose

  const INITIAL := State(Disconnected, 0, false, [], map[], map[], map[])

  function Settle(s: State, q: RequestId, outcome: Outcome): State {
    s.(pending := s.pending - {q}, settled := s.settled[q := outcome])
  }

  function RejectAll(s: State): State {
    s.(pending := map[], settled := s.settled + map q | q in s.pending :: Rejected)
  }

  /** The end of a connection, whatever ends it. */
  function Fail(s: State): State {
    match s.lifecycle
    case Disconnected => s
    case Connecting(id, _) => RejectAll(s).(lifecycle := Disconnected, handshakes := s.handshakes[id := false])
    case Connected(_) => RejectAll(s).(lifecycle := Disconnected)
  }

  function Issue(s: State, command: Command): State {
    s.(issued := s.issued + [command], pending := s.pending[|s.issued| + 1 := command])
  }

  function MakeCall(s: State, command: Command, encodes: bool, sends: bool): State {
    if s.disposed || !s.lifecycle.Connected? then s
    else if !encodes then Settle(Issue(s, command), |s.issued| + 1, Rejected)
    else if !sends then Fail(Issue(s, command))
    else Issue(s, command)
  }

  function HandleResponse(s: State, q: RequestId, reply: Reply): State {
    if q !in s.pending then Fail(s)
    else if reply.Refused? then Settle(s, q, Rejected)
    else if reply.command != s.pending[q] then Fail(Settle(s, q, Rejected))
    else Settle(s, q, Resolved(reply.command, reply.body))
  }

  function HandleMessage(s: State, m: ServerMessage): State {
    match s.lifecycle
    case Disconnected => s
    case Connecting(id, _) =>
      if m.Hello? then s.(lifecycle := Connected(id), handshakes := s.handshakes[id := true]) else Fail(s)
    case Connected(_) =>
      match m
      case Response(q, reply) => HandleResponse(s, q, reply)
      case EventMessage => s
      case _ => Fail(s)
  }

  /** The messages of one chunk, in order, until one of them ends the connection. */
  function HandleMessages(s: State, messages: seq<ServerMessage>): State
    decreases |messages|
  {
    if messages == [] || s.lifecycle.Disconnected? then s
    else HandleMessages(HandleMessage(s, messages[0]), messages[1..])
  }

  predicate IsCurrent(s: State, id: ConnectionId) {
    !s.lifecycle.Disconnected? && s.lifecycle.id == id
  }

  function HandleData(s: State, messages: Option<seq<ServerMessage>>): State {
    if s.lifecycle.Connecting? && !s.lifecycle.open then Fail(s)
    else if messages.None? then Fail(s)
    else HandleMessages(s, messages.value)
  }

  function StartConnecting(s: State): State {
    if s.disposed || !s.lifecycle.Disconnected? then s
    else s.(lifecycle := Connecting(s.sequence + 1, false), sequence := s.sequence + 1)
  }

  function Apply(s: State, e: Event): State {
    match e
    case Call(command, encodes, sends) => MakeCall(s, command, encodes, sends)
    case Connect => StartConnecting(s)
    case TransportOpened(id) =>
      if s.lifecycle.Connecting? && s.lifecycle.id == id then s.(lifecycle := Connecting(id, true)) else s
    case TransportLost(id) => if IsCurrent(s, id) then Fail(s) else s
    case Data(id, messages) => if IsCurrent(s, id) then HandleData(s, messages) else s
    case Disconnect => Fail(s)
    case Dispose => Fail(RejectAll(s.(disposed := true)))
  }

  ghost predicate Execution(states: seq<State>, events: seq<Event>) {
    && |states| == |events| + 1 && states[0] == INITIAL
    && forall i :: 0 <= i < |events| ==> states[i + 1] == Apply(states[i], events[i])
  }
}

/** Conservation of requests: what every run keeps of promises and of connection attempts. */
module RequestSafety {
  import opened Common
  import opened RequestProtocol

  /** Every issued request is either waiting or settled, never both; only a connected client has any waiting. */
  ghost predicate RequestsOk(s: State) {
    && (forall q :: q in s.pending || q in s.settled <==> 1 <= q <= |s.issued|)
    && (forall q <- s.pending :: q !in s.settled && s.pending[q] == s.issued[q - 1])
    && (forall q <- s.settled :: s.settled[q].Resolved? ==> s.settled[q].command == s.issued[q - 1])
    && (!s.lifecycle.Connected? ==> s.pending == map[])
  }

  /** Every connection attempt but the one in progress has settled its handshake. */
  ghost predicate HandshakesOk(s: State) {
    && (forall id :: id in s.handshakes || (s.lifecycle.Connecting? && s.lifecycle.id == id) <==> 1 <= id <= s.sequence)
    && (s.lifecycle.Connecting? ==> s.lifecycle.id !in s.handshakes)
    && (!s.lifecycle.Disconnected? ==> s.lifecycle.id == s.sequence)
  }

  ghost predicate Inv(s: State) {
    RequestsOk(s) && HandshakesOk(s)
  }

  /** A promise settles once: what is settled stays, and what settles was waiting or is new. */
  ghost predicate SettlesOnce(s: State, s': State) {
    && s.issued <= s'.issued
    && (forall q <- s.settled :: q in s'.settled && s'.settled[q] == s.settled[q])
    && (forall q <- s'.settled :: q in s.settled || q in s.pending || |s.issued| < q)
    && (forall q <- s'.pending :: q in s.pending || |s.issued| < q)
    && (forall id <- s.handshakes :: id in s'.handshakes && s'.handshakes[id] == s.handshakes[id])
  }

  /** A new resolution is the answer in one of the messages, to the command issued under the same id. */
  ghost predicate ResolvedBy(s: State, s': State, messages: seq<ServerMessage>) {
    forall q <- s'.settled :: q !in s.settled && s'.settled[q].Resolved? ==>
      Response(q, Result(s'.settled[q].command, s'.settled[q].body)) in messages
  }

  lemma RejectAllOk(s: State)
    requires RequestsOk(s)
    ensures RequestsOk(RejectAll(s)) && SettlesOnce(s, RejectAll(s)) && ResolvedBy(s, RejectAll(s), [])
    ensures HandshakesOk(s) ==> HandshakesOk(RejectAll(s))
  {
  }

  lemma HandshakeEnds(s: State, id: ConnectionId, ok: bool, lifecycle: Lifecycle)
    requires HandshakesOk(s) && s.lifecycle.Connecting? && s.lifecycle.id == id
    requires lifecycle.Disconnected? || lifecycle == Connected(id)
    ensures HandshakesOk(s.(lifecycle := lifecycle, handshakes := s.handshakes[id := ok]))
  {
  }

  lemma FailOk(s: State)
    requires Inv(s)
    ensures Inv(Fail(s)) && SettlesOnce(s, Fail(s)) && ResolvedBy(s, Fail(s), [])
    ensures Fail(s).lifecycle.Disconnected?
  {
    hide HandshakesOk;
    RejectAllOk(s);
    var t := RejectAll(s);
    if s.lifecycle.Connecting? {
      HandshakeEnds(t, s.lifecycle.id, false, Disconnected);
      assert s.lifecycle.id !in s.handshakes by { AttemptOpen(s); }
    } else if s.lifecycle.Connected? {
      ConnectionEnds(t);
    }
  }

  lemma AttemptOpen(s: State)
    requires HandshakesOk(s) && s.lifecycle.Connecting?
    ensures s.lifecycle.id !in s.handshakes
  {
  }

  lemma ConnectionEnds(s: State)
    requires HandshakesOk(s) && s.lifecycle.Connected?
    ensures HandshakesOk(s.(lifecycle := Disconnected))
  {
  }

  lemma SettleOk(s: State, q: RequestId, outcome: Outcome)
    requires Inv(s) && q in s.pending && (outcome.Resolved? ==> outcome.command == s.pending[q])
    ensures Inv(Settle(s, q, outcome)) && SettlesOnce(s, Settle(s, q, outcome))
  {
  }

  lemma HandleResponseOk(s: State, q: RequestId, reply: Reply)
    requires Inv(s)
    ensures var s' := HandleResponse(s, q, reply);
            Inv(s') && SettlesOnce(s, s') && ResolvedBy(s, s', [Response(q, reply)])
  {
    hide Inv, Fail;
    FailOk(s);
    if q in s.pending {
      SettleOk(s, q, Rejected);
      FailOk(Settle(s, q, Rejected));
      if reply.Result? && reply.command == s.pending[q] {
        SettleOk(s, q, Resolved(reply.command, reply.body));
      }
    }
  }

  lemma HandleMessageOk(s: State, m: ServerMessage)
    requires Inv(s)
    ensures var s' := HandleMessage(s, m); Inv(s') && SettlesOnce(s, s') && ResolvedBy(s, s', [m])
  {
    hide HandleResponse, Fail;
    FailOk(s);
    if m.Response? {
      HandleResponseOk(s, m.id, m.reply);
    }
  }

  lemma Chain(s: State, t: State, u: State, a: seq<ServerMessage>, b: seq<ServerMessage>)
    requires SettlesOnce(s, t) && SettlesOnce(t, u) && ResolvedBy(s, t, a) && ResolvedBy(t, u, b)
    ensures SettlesOnce(s, u) && ResolvedBy(s, u, a + b)
  {
    assert s.issued <= u.issued;
  }

  lemma {:induction false} HandleMessagesOk(s: State, messages: seq<ServerMessage>)
    requires Inv(s)
    ensures var s' := HandleMessages(s, messages); Inv(s') && SettlesOnce(s, s') && ResolvedBy(s, s', messages)
    decreases |messages|
  {
    hide Inv, HandleMessage;
    if messages != [] && !s.lifecycle.Disconnected? {
      var t := HandleMessage(s, messages[0]);
      HandleMessageOk(s, messages[0]);
      HandleMessagesOk(t, messages[1..]);
      assert [messages[0]] + messages[1..] == messages;
      Chain(s, t, HandleMessages(s, messages), [messages[0]], messages[1..]);
    }
  }

  /** The messages an event brings to the current connection. */
  function Brought(s: State, e: Event): seq<ServerMessage> {
    if e.Data? && IsCurrent(s, e.id) && e.messages.Some? then e.messages.value else []
  }

  lemma IssueOk(s: State, command: Command)
    requires Inv(s) && s.lifecycle.Connected?
    ensures Inv(Issue(s, command)) && SettlesOnce(s, Issue(s, command)) && ResolvedBy(s, Issue(s, command), [])
  {
  }

  lemma MakeCallOk(s: State, command: Command, encodes: bool, sends: bool)
    requires Inv(s)
    ensures var s' := MakeCall(s, command, encodes, sends); Inv(s') && SettlesOnce(s, s') && ResolvedBy(s, s', [])
  {
    hide Inv, Fail;
    if !s.disposed && s.lifecycle.Connected? {
      var t := Issue(s, command);
      IssueOk(s, command);
      SettleOk(t, |s.issued| + 1, Rejected);
      FailOk(t);
      Chain(s, t, MakeCall(s, command, encodes, sends), [], []);
    }
  }

  lemma DisposeOk(s: State)
    requires Inv(s)
    ensures var s' := Apply(s, Dispose); Inv(s') && SettlesOnce(s, s') && ResolvedBy(s, s', [])
  {
    hide Fail, RejectAll;
    var t := s.(disposed := true);
    RejectAllOk(t);
    FailOk(RejectAll(t));
    Chain(s, t, RejectAll(t), [], []);
    Chain(s, RejectAll(t), Fail(RejectAll(t)), [], []);
  }

  lemma LifecycleOk(s: State, s': State)
    requires Inv(s) && !s.lifecycle.Connected? && !s'.lifecycle.Connected?
    requires s' == s.(lifecycle := s'.lifecycle, sequence := s'.sequence) && HandshakesOk(s')
    ensures Inv(s') && SettlesOnce(s, s') && ResolvedBy(s, s', [])
  {
  }

  lemma DataOk(s: State, messages: Option<seq<ServerMessage>>)
    requires Inv(s)
    ensures var s' := HandleData(s, messages);
            Inv(s') && SettlesOnce(s, s') && ResolvedBy(s, s', if messages.Some? then messages.value else [])
  {
    hide Fail, Inv;
    FailOk(s);
    if messages.Some? {
      HandleMessagesOk(s, messages.value);
    }
  }

  /** One step settles only what was waiting, and resolves only by a response that just arrived. */
  lemma StepOk(s: State, e: Event)
    requires Inv(s)
    ensures Inv(Apply(s, e)) && SettlesOnce(s, Apply(s, e)) && ResolvedBy(s, Apply(s, e), Brought(s, e))
  {
    hide Fail, MakeCall, HandleData, RejectAll, RequestsOk;
    FailOk(s);
    match e
    case Call(command, encodes, sends) => MakeCallOk(s, command, encodes, sends);
    case Connect =>
      if !s.lifecycle.Connected? {
        LifecycleOk(s, StartConnecting(s));
      }
    case TransportOpened(_) =>
      if !s.lifecycle.Connected? {
        LifecycleOk(s, Apply(s, e));
      }
    case Data(_, messages) => DataOk(s, messages);
    case Dispose => DisposeOk(s);
    case _ =>
  }

  lemma {:induction false} ExecutionOk(states: seq<State>, events: seq<Event>, n: nat)
    requires Execution(states, events) && n <= |events|
    ensures Inv(states[n])
  {
    hide Apply;
    if n > 0 {
      ExecutionOk(states, events, n - 1);
      StepOk(states[n - 1], events[n - 1]);
    }
  }

  /**
   * In every state of every run: each issued request is pending or settled and not both, what is resolved
   * is resolved with a result of its own command, and nothing is pending unless the client is connected.
   */
  lemma RequestsConserved(states: seq<State>, events: seq<Event>, n: nat, q: RequestId)
    requires Execution(states, events) && n <= |events|
    ensures var s := states[n];
            && (1 <= q <= |s.issued| <==> q in s.pending || q in s.settled)
            && !(q in s.pending && q in s.settled)
            && (q in s.settled && s.settled[q].Resolved? ==> s.settled[q].command == s.issued[q - 1])
            && (q in s.pending ==> s.lifecycle.Connected?)
  {
    ExecutionOk(states, events, n);
  }

  /** How a request, or a connection attempt, settled never changes afterwards. */
  lemma {:induction false} SettledForGood(states: seq<State>, events: seq<Event>, m: nat, n: nat)
    requires Execution(states, events) && m <= n <= |events|
    ensures states[m].issued <= states[n].issued
    ensures forall q <- states[m].settled :: q in states[n].settled && states[n].settled[q] == states[m].settled[q]
    ensures forall id <- states[m].handshakes ::
              id in states[n].handshakes && states[n].handshakes[id] == states[m].handshakes[id]
  {
    hide Apply, Inv;
    if m < n {
      SettledForGood(states, events, m, n - 1);
      ExecutionOk(states, events, n - 1);
      StepOk(states[n - 1], events[n - 1]);
      assert states[n] == Apply(states[n - 1], events[n - 1]);
    }
  }

  lemma {:induction false} MessagesIssueNothing(s: State, messages: seq<ServerMessage>)
    ensures HandleMessages(s, messages).issued == s.issued
    decreases |messages|
  {
    if messages != [] && !s.lifecycle.Disconnected? {
      MessagesIssueNothing(HandleMessage(s, messages[0]), messages[1..]);
    }
  }

  lemma DataIssuesNothing(s: State, e: Event)
    requires Brought(s, e) != []
    ensures Apply(s, e).issued == s.issued
  {
    MessagesIssueNothing(s, e.messages.value);
  }

  lemma SettledWasIssued(s: State, q: RequestId)
    requires Inv(s) && q in s.settled
    ensures 1 <= q <= |s.issued|
  {
  }

  /** A resolved request was resolved by a response with its id and command that arrived on the current connection. */
  lemma {:induction false} ResolutionHasResponse(states: seq<State>, events: seq<Event>, n: nat, q: RequestId)
    returns (i: nat)
    requires Execution(states, events) && n <= |events|
    requires q in states[n].settled && states[n].settled[q].Resolved?
    ensures i < n && q in states[i].pending
    ensures var outcome := states[n].settled[q];
            Response(q, Result(outcome.command, outcome.body)) in Brought(states[i], events[i])
  {
    hide Apply, Inv, Brought;
    ExecutionOk(states, events, n - 1);
    StepOk(states[n - 1], events[n - 1]);
    assert states[n] == Apply(states[n - 1], events[n - 1]);
    if q in states[n - 1].settled {
      i := ResolutionHasResponse(states, events, n - 1, q);
    } else {
      i := n - 1;
      DataIssuesNothing(states[i], events[i]);
      ExecutionOk(states, events, n);
      SettledWasIssued(states[n], q);
    }
  }
}
