/**
 * What becomes of each request: the first response with its id settles it by what the response says, as long
 * as no earlier message of the chunk ends the connection; the end of the connection rejects the others.
 */
module RequestOutcomes {
  import opened Common
  import opened RequestProtocol
  import opened RequestSafety

  predicate Answers(m: ServerMessage, q: RequestId) {
    m.Response? && m.id == q
  }

  /** How a reply settles a request for the command. */
  function Verdict(command: Command, reply: Reply): Outcome {
    if reply == Refused || reply.command != command then Rejected else Resolved(command, reply.body)
  }

  /** An event, or an answer that is due: a refusal, or a result of the command that was sent. */
  predicate IsDue(pending: map<RequestId, Command>, m: ServerMessage) {
    || m == EventMessage
    || (m.Response? && m.id in pending && (m.reply == Refused || m.reply.command == pending[m.id]))
  }

  /** How many messages from the beginning are due; a request is answered once. */
  function DueLength(pending: map<RequestId, Command>, messages: seq<ServerMessage>): (k: nat)
    ensures k <= |messages|
  {
    if messages == [] || !IsDue(pending, messages[0]) then 0
    else 1 + DueLength(if messages[0].Response? then pending - {messages[0].id} else pending, messages[1..])
  }

  /** The first reply to the request. */
  function ReplyTo(messages: seq<ServerMessage>, q: RequestId): Option<Reply> {
    if messages == [] then None
    else if Answers(messages[0], q) then Some(messages[0].reply)
    else ReplyTo(messages[1..], q)
  }

  lemma {:induction false} FirstAnswer(messages: seq<ServerMessage>, q: RequestId, k: nat)
    requires k < |messages| && Answers(messages[k], q) && forall j :: 0 <= j < k ==> !Answers(messages[j], q)
    ensures ReplyTo(messages, q) == Some(messages[k].reply)
  {
    if k > 0 {
      FirstAnswer(messages[1..], q, k - 1);
    }
  }

  /** What has become of a request that was waiting with the command. */
  predicate Became(s: State, q: RequestId, command: Command, reply: Option<Reply>) {
    match reply
    case Some(r) => q !in s.pending && q in s.settled && s.settled[q] == Verdict(command, r)
    case None =>
      if s.lifecycle.Connected? then q in s.pending && s.pending[q] == command
      else q in s.settled && s.settled[q] == Rejected
  }

  lemma DueOne(s: State, m: ServerMessage)
    requires s.lifecycle.Connected? && IsDue(s.pending, m)
    ensures var s' := HandleMessage(s, m);
            && s' == s.(pending := s'.pending, settled := s'.settled)
            && s'.pending == (if m.Response? then s.pending - {m.id} else s.pending)
            && s'.settled == if m.Response? then s.settled[m.id := Verdict(s.pending[m.id], m.reply)] else s.settled
  {
  }

  /** A message that is not due ends the connection and rejects what is still waiting. */
  lemma UndueEnds(s: State, m: ServerMessage)
    requires s.lifecycle.Connected? && !IsDue(s.pending, m)
    ensures var s' := HandleMessage(s, m);
            && s'.lifecycle.Disconnected? && s'.pending == map[]
            && (forall q <- s.pending :: q in s'.settled && s'.settled[q] == Rejected)
            && (forall q <- s.settled :: q !in s.pending ==> q in s'.settled && s'.settled[q] == s.settled[q])
  {
  }

  lemma {:induction false} EndedStays(s: State, messages: seq<ServerMessage>)
    requires s.lifecycle.Disconnected?
    ensures HandleMessages(s, messages) == s
  {
  }

  /**
   * What a chunk does to a connected client, and to each request that is waiting: as long as the messages are due
   * the first reply to a request settles it by what it says. The first message that is not due ends the connection
   * and rejects all that have not been answered; without one the connection stays and they go on waiting.
   */
  lemma {:induction false} ChunkSettles(s: State, messages: seq<ServerMessage>)
    requires s.lifecycle.Connected?
    ensures var (s', k) := (HandleMessages(s, messages), DueLength(s.pending, messages));
            && s'.lifecycle == (if k == |messages| then s.lifecycle else Disconnected)
            && (forall q <- s.pending :: Became(s', q, s.pending[q], ReplyTo(messages[..k], q)))
            && (forall q <- s'.pending :: q in s.pending)
            && (forall q <- s.settled :: q !in s.pending ==> q in s'.settled && s'.settled[q] == s.settled[q])
    decreases |messages|
  {
    if messages != [] {
      var (m, rest) := (messages[0], messages[1..]);
      var t := HandleMessage(s, m);
      if IsDue(s.pending, m) {
        DueOne(s, m);
        ChunkSettles(t, rest);
        var k := DueLength(t.pending, rest);
        assert DueLength(s.pending, messages) == k + 1;
        assert messages[..k + 1][0] == m && messages[..k + 1][1..] == rest[..k];
        hide HandleMessage, IsDue, DueLength;
        forall q | q in s.pending
          ensures Became(HandleMessages(s, messages), q, s.pending[q], ReplyTo(messages[..k + 1], q))
        {
          if q in t.pending {
            assert !Answers(m, q) && Became(HandleMessages(t, rest), q, t.pending[q], ReplyTo(rest[..k], q));
          }
        }
      } else {
        UndueEnds(s, m);
        EndedStays(t, rest);
        assert messages[..0] == [];
      }
    }
  }

  /**
   * Over a run: when every message before it is due, the first reply to a waiting request settles it for good:
   * resolved by a result of its command, rejected by anything else. Only a result of another command ends the
   * connection.
   */
  lemma AnswerSettles(states: seq<State>, events: seq<Event>, i: nat, n: nat, k: nat)
    requires Execution(states, events) && i < n <= |events|
    requires events[i].Data? && states[i].lifecycle == Connected(events[i].id) && events[i].messages.Some?
    requires k < |events[i].messages.value| && k <= DueLength(states[i].pending, events[i].messages.value)
    requires var m := events[i].messages.value[k];
             && m.Response? && m.id in states[i].pending
             && forall j :: 0 <= j < k ==> !Answers(events[i].messages.value[j], m.id)
    ensures var m := events[i].messages.value[k];
            var command := states[i].pending[m.id];
            && m.id in states[n].settled && states[n].settled[m.id] == Verdict(command, m.reply)
            && (m.reply.Result? && m.reply.command != command ==> states[i + 1].lifecycle.Disconnected?)
            && (states[i + 1].lifecycle == states[i].lifecycle <==>
                  DueLength(states[i].pending, events[i].messages.value) == |events[i].messages.value|)
            && (m.reply == Refused || m.reply.command == command <==>
                  k < DueLength(states[i].pending, events[i].messages.value))
  {
    var (s, messages) := (states[i], events[i].messages.value);
    var (m, d) := (messages[k], DueLength(s.pending, messages));
    ChunkSettles(s, messages);
    DueAt(s.pending, messages, k);
    if k < d {
      assert forall j :: 0 <= j <= k ==> messages[..d][j] == messages[j];
      FirstAnswer(messages[..d], m.id, k);
    } else {
      NoAnswer(messages[..k], m.id);
    }
    assert states[i + 1] == HandleMessages(s, messages);
    SettledForGood(states, events, i + 1, n);
  }

  lemma {:induction false} NoAnswer(messages: seq<ServerMessage>, q: RequestId)
    requires forall j :: 0 <= j < |messages| ==> !Answers(messages[j], q)
    ensures ReplyTo(messages, q) == None
  {
    if messages != [] {
      NoAnswer(messages[1..], q);
    }
  }

  /** Whether the first answer to a request is due depends on what it says only. */
  lemma {:induction false} DueAt(pending: map<RequestId, Command>, messages: seq<ServerMessage>, k: nat)
    requires k < |messages| && k <= DueLength(pending, messages)
    requires messages[k].Response? && messages[k].id in pending
    requires forall j :: 0 <= j < k ==> !Answers(messages[j], messages[k].id)
    ensures k < DueLength(pending, messages) <==>
            messages[k].reply == Refused || messages[k].reply.command == pending[messages[k].id]
  {
    if k > 0 {
      var m := messages[0];
      assert !Answers(m, messages[k].id);
      assert forall j :: 0 <= j < k - 1 ==> messages[1..][j] == messages[j + 1];
      DueAt(if m.Response? then pending - {m.id} else pending, messages[1..], k - 1);
    }
  }

  // Everything else that happens to a client

  /** A call is issued exactly on a connected client, and waits exactly if it could be encoded and sent. */
  lemma CallWaitsExactly(s: State, command: Command, encodes: bool, sends: bool)
    requires Inv(s)
    ensures var (s', q) := (Apply(s, Call(command, encodes, sends)), |s.issued| + 1);
            && (s.disposed || !s.lifecycle.Connected? ==> s' == s)
            && (!s.disposed && s.lifecycle.Connected? ==>
                  && s'.issued == s.issued + [command]
                  && (q in s'.pending <==> encodes && sends)
                  && (q !in s'.pending ==> q in s'.settled && s'.settled[q] == Rejected)
                  && (s'.lifecycle == if encodes && !sends then Disconnected else s.lifecycle)
                  && (s'.lifecycle.Connected? ==> forall p <- s.pending :: p in s'.pending))
  {
  }

  /** The events that end a connection, whatever the messages say. */
  predicate EndsConnection(s: State, e: Event) {
    || e.Disconnect? || e.Dispose?
    || (!s.lifecycle.Disconnected? && e.TransportLost? && e.id == s.lifecycle.id)
    || (!s.lifecycle.Disconnected? && e.Data? && e.id == s.lifecycle.id
        && (e.messages.None? || s.lifecycle == Connecting(e.id, false)))
  }

  /** They reject every waiting request, and the attempt in progress. */
  lemma EndRejectsAll(s: State, e: Event)
    requires Inv(s) && EndsConnection(s, e)
    ensures var s' := Apply(s, e);
            && s'.lifecycle.Disconnected? && s'.pending == map[] && s'.issued == s.issued
            && (s'.disposed <==> s.disposed || e.Dispose?)
            && (forall q <- s.pending :: q in s'.settled && s'.settled[q] == Rejected)
            && (s.lifecycle.Connecting? ==> s.lifecycle.id in s'.handshakes && !s'.handshakes[s.lifecycle.id])
  {
    hide Fail, RejectAll, HandshakesOk;
    FailRejectsAll(s);
    if e.Dispose? {
      var t := s.(disposed := true);
      RejectsAll(t);
      FailRejectsAll(RejectAll(t));
    }
  }

  lemma RejectsAll(s: State)
    ensures var s' := RejectAll(s);
            && s' == s.(pending := map[], settled := s'.settled)
            && (forall q <- s.pending :: q in s'.settled && s'.settled[q] == Rejected)
            && (forall q <- s.settled :: q !in s.pending ==> q in s'.settled && s'.settled[q] == s.settled[q])
  {
  }

  lemma FailRejectsAll(s: State)
    requires !s.lifecycle.Connected? ==> s.pending == map[]
    ensures var s' := Fail(s);
            && s'.lifecycle.Disconnected? && s'.pending == map[] && s'.issued == s.issued && s'.disposed == s.disposed
            && (forall q <- s.pending :: q in s'.settled && s'.settled[q] == Rejected)
            && (forall q <- s.settled :: q !in s.pending ==> q in s'.settled && s'.settled[q] == s.settled[q])
            && (s.lifecycle.Connecting? ==> s.lifecycle.id in s'.handshakes && !s'.handshakes[s.lifecycle.id])
  {
    hide RejectAll;
    RejectsAll(s);
  }

  /** Nothing that an older transport reports changes anything. */
  lemma StaleIsIgnored(s: State, e: Event)
    requires e.TransportOpened? || e.TransportLost? || e.Data?
    requires s.lifecycle.Disconnected? || e.id != s.lifecycle.id
    ensures Apply(s, e) == s
  {
  }

  /** An attempt begins exactly on a client that is neither disposed nor on a connection. */
  lemma AttemptBegins(s: State)
    ensures var s' := Apply(s, Connect);
            if s.disposed || !s.lifecycle.Disconnected? then s' == s
            else s' == s.(lifecycle := s'.lifecycle, sequence := s'.sequence)
                 && s'.lifecycle == Connecting(s'.sequence, false) && s'.sequence > s.sequence
  {
  }

  /** On an open attempt a hello, and nothing else, completes the handshake; the rest of the chunk is as usual. */
  lemma FirstMessageDecides(s: State, m: ServerMessage, rest: seq<ServerMessage>)
    requires s.lifecycle.Connecting? && s.lifecycle.open
    ensures var (id, s') := (s.lifecycle.id, Apply(s, Data(s.lifecycle.id, Some([m] + rest))));
            if m == Hello
            then s' == HandleMessages(s.(lifecycle := Connected(id), handshakes := s.handshakes[id := true]), rest)
            else s'.lifecycle.Disconnected? && id in s'.handshakes && !s'.handshakes[id]
  {
    assert ([m] + rest)[1..] == rest;
    if m != Hello {
      EndedStays(HandleMessage(s, m), rest);
    }
  }

  /** The transport opens once for the attempt it belongs to. */
  lemma OpensAttempt(s: State)
    requires s.lifecycle.Connecting?
    ensures Apply(s, TransportOpened(s.lifecycle.id)) == s.(lifecycle := Connecting(s.lifecycle.id, true))
  {
  }

  /** A disposed client stays without a connection, and no call of it is issued. */
  lemma {:induction false} DisposedForGood(states: seq<State>, events: seq<Event>, i: nat, n: nat)
    requires Execution(states, events) && i <= n <= |events| && states[i].disposed && states[i].lifecycle.Disconnected?
    ensures states[n].disposed && states[n].lifecycle.Disconnected? && states[n].issued == states[i].issued
  {
    if i < n {
      DisposedForGood(states, events, i, n - 1);
      ExecutionOk(states, events, n - 1);
      DisposedStep(states[n - 1], events[n - 1]);
      assert states[n] == Apply(states[n - 1], events[n - 1]);
    }
  }

  lemma DisposedStep(s: State, e: Event)
    requires Inv(s) && s.disposed && s.lifecycle.Disconnected?
    ensures Apply(s, e).disposed && Apply(s, e).lifecycle.Disconnected? && Apply(s, e).issued == s.issued
  {
  }
}
