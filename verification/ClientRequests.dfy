/** The client that performs the request protocol, with its tables updated in place. */
module ClientRequests {
  import opened Common
  import opened RequestProtocol
  import opened RequestSafety

  /** The pending requests have been rejected, except those that are left. */
  ghost predicate Rejecting(s: State, left: set<RequestId>, settled: map<RequestId, Outcome>) {
    && left <= s.pending.Keys
    && (forall q :: q in settled <==> q in s.settled || (q in s.pending && q !in left))
    && (forall q <- settled :: settled[q] == if q in s.pending then Rejected else s.settled[q])
  }

  lemma NoneRejected(s: State)
    requires forall q <- s.pending :: q !in s.settled
    ensures Rejecting(s, s.pending.Keys, s.settled)
  {
  }

  lemma RejectOne(s: State, left: set<RequestId>, settled: map<RequestId, Outcome>, id: RequestId)
    requires Rejecting(s, left, settled) && id in left
    ensures Rejecting(s, left - {id}, settled[id := Rejected])
  {
  }

  lemma AllRejected(s: State, settled: map<RequestId, Outcome>)
    requires Rejecting(s, {}, settled)
    ensures RejectAll(s) == s.(pending := map[], settled := settled)
  {
  }

  class PiClient {
    var lifecycle: Lifecycle
    var sequence: ConnectionId
    var disposed: bool
    var requestSequence: RequestId
    var pendingRequests: map<RequestId, Command>
    /** The promises handed to callers: what was asked, and how each was settled. */
    ghost var issued: seq<Command>
    ghost var settled: map<RequestId, Outcome>
    ghost var handshakes: map<ConnectionId, bool>

    ghost function View(): State
      reads this
    {
      State(lifecycle, sequence, disposed, issued, pendingRequests, settled, handshakes)
    }

    ghost predicate Valid()
      reads this
    {
      requestSequence == |issued| && Inv(View())
    }

    constructor ()
      ensures Valid() && View() == INITIAL
    {
      lifecycle, sequence, disposed, requestSequence := Disconnected, 0, false, 0;
      pendingRequests, issued, settled, handshakes := map[], [], map[], map[];
    }

    /** resolve or reject of a pending request, whose promise has not been settled before. */
    method Settle(id: RequestId, outcome: Outcome)
      requires id in pendingRequests && id !in settled
      modifies this`pendingRequests, this`settled
      ensures View() == RequestProtocol.Settle(old(View()), id, outcome)
    {
      pendingRequests := pendingRequests - {id};
      settled := settled[id := outcome];
    }

    method RejectPendingRequests()
      requires forall q <- pendingRequests :: q !in settled
      modifies this`pendingRequests, this`settled
      ensures View() == RejectAll(old(View()))
    {
      ghost var before := View();
      var requests := pendingRequests.Keys;
      NoneRejected(before);
      hide Rejecting, RejectAll;
      pendingRequests := map[];
      while requests != {}
        invariant pendingRequests == map[] && Rejecting(before, requests, settled)
        decreases |requests|
      {
        var id :| id in requests;
        RejectOne(before, requests, settled, id);
        requests := requests - {id};
        settled := settled[id := Rejected];
      }
      AllRejected(before, settled);
    }

    /** Every way in which a connection ends comes through here. */
    method Fail()
      requires Valid()
      modifies this
      ensures Valid() && View() == RequestProtocol.Fail(old(View())) && lifecycle.Disconnected?
    {
      FailOk(View());
      if lifecycle.Disconnected? {
        return;
      }
      if lifecycle.Connecting? {
        handshakes := handshakes[lifecycle.id := false];
      }
      lifecycle := Disconnected;
      RejectPendingRequests();
    }

    /** connect(): None when the client is disposed or not disconnected. */
    method Connect() returns (id: Option<ConnectionId>)
      requires Valid()
      modifies this
      ensures Valid() && View() == Apply(old(View()), Event.Connect)
      ensures id.Some? ==> id.value !in old(handshakes) && IsCurrent(View(), id.value)
    {
      StepOk(View(), Event.Connect);
      if disposed || !lifecycle.Disconnected? {
        return None;
      }
      sequence := sequence + 1;
      lifecycle := Connecting(sequence, false);
      return Some(sequence);
    }

    method TransportOpened(id: ConnectionId)
      requires Valid()
      modifies this
      ensures Valid() && View() == Apply(old(View()), Event.TransportOpened(id))
    {
      StepOk(View(), Event.TransportOpened(id));
      if lifecycle.Connecting? && lifecycle.id == id {
        lifecycle := Connecting(id, true);
      }
    }

    method TransportLost(id: ConnectionId)
      requires Valid()
      modifies this
      ensures Valid() && View() == Apply(old(View()), Event.TransportLost(id))
    {
      if !lifecycle.Disconnected? && lifecycle.id == id {
        Fail();
      }
    }

    /** A call: Some(id) when its promise settles later or through the tables, None when it is rejected at once. */
    method Request(command: Command, encodes: bool, sends: bool) returns (id: Option<RequestId>)
      requires Valid()
      modifies this
      ensures Valid() && View() == Apply(old(View()), Call(command, encodes, sends))
      ensures id == if |issued| == |old(issued)| then None else Some(|issued|)
    {
      StepOk(View(), Call(command, encodes, sends));
      if disposed || !lifecycle.Connected? {
        return None;
      }
      IssueOk(View(), command);
      requestSequence := requestSequence + 1;
      pendingRequests := pendingRequests[requestSequence := command];
      issued := issued + [command];
      id := Some(requestSequence);
      if !encodes {
        Settle(requestSequence, Rejected);
      } else if !sends {
        Fail();
      }
    }

    method HandleResponse(id: RequestId, reply: Reply)
      requires Valid()
      modifies this
      ensures Valid() && View() == RequestProtocol.HandleResponse(old(View()), id, reply)
    {
      HandleResponseOk(View(), id, reply);
      if id !in pendingRequests {
        Fail();
        return;
      }
      SettleOk(View(), id, Rejected);
      if reply.Refused? {
        Settle(id, Rejected);
      } else if reply.command != pendingRequests[id] {
        Settle(id, Rejected);
        Fail();
      } else {
        Settle(id, Resolved(reply.command, reply.body));
      }
    }

    method HandleMessage(message: ServerMessage)
      requires Valid()
      modifies this
      ensures Valid() && View() == RequestProtocol.HandleMessage(old(View()), message)
    {
      HandleMessageOk(View(), message);
      if lifecycle.Connecting? {
        if message.Hello? {
          handshakes := handshakes[lifecycle.id := true];
          lifecycle := Connected(lifecycle.id);
        } else {
          Fail();
        }
      } else if lifecycle.Connected? {
        match message
        case Response(id, reply) => HandleResponse(id, reply);
        case EventMessage =>
        case _ => Fail();
      }
    }

    /** The messages of a chunk are handled until one of them ends the connection. */
    method HandleData(id: ConnectionId, messages: Option<seq<ServerMessage>>)
      requires Valid()
      modifies this
      ensures Valid() && View() == Apply(old(View()), Data(id, messages))
    {
      if lifecycle.Disconnected? || lifecycle.id != id {
        return;
      }
      if lifecycle.Connecting? && !lifecycle.open {
        Fail();
        return;
      }
      if messages.None? {
        Fail();
        return;
      }
      var i := 0;
      while i < |messages.value|
        invariant 0 <= i <= |messages.value| && Valid()
        invariant HandleMessages(View(), messages.value[i..]) == HandleMessages(old(View()), messages.value)
      {
        if lifecycle.Disconnected? {
          return;
        }
        assert messages.value[i..][1..] == messages.value[i + 1..];
        HandleMessage(messages.value[i]);
        i := i + 1;
      }
    }

    method Disconnect()
      requires Valid()
      modifies this
      ensures Valid() && View() == Apply(old(View()), Event.Disconnect)
      ensures lifecycle.Disconnected? && pendingRequests == map[]
    {
      FailOk(View());
      Fail();
    }

    method Dispose()
      requires Valid()
      modifies this
      ensures Valid() && View() == Apply(old(View()), Event.Dispose)
      ensures disposed && lifecycle.Disconnected? && pendingRequests == map[]
    {
      disposed := true;
      RejectAllOk(View());
      RejectPendingRequests();
      Fail();
    }
  }
}
