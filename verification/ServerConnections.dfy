/** Connections and the snapshot publisher of the server, with their fields updated in place. */
module ServerConnections {
  import opened Common
  import opened HandshakeProtocol

  class ConnectionState {
    const id: ConnId
    var stage: Stage
    var disconnected: bool
    var handshakeComplete: bool
    /** What the transport accepts and has accepted. */
    var closed: bool
    var outbox: seq<Message>
    /** The continuation of finishHandshake. */
    var wait: Wait

    ghost function View(): Conn
      reads this
    {
      Conn(stage, disconnected, closed, handshakeComplete, wait, outbox)
    }

    constructor (id: ConnId)
      ensures View() == ACCEPTED && this.id == id
    {
      this.id := id;
      stage, disconnected, handshakeComplete, closed, outbox, wait := AwaitingHello, false, false, false, [], NoWait;
    }

    /** What sendMessage does before it first waits. */
    method SendMessage(message: Message, fits: bool)
      modifies this`closed, this`outbox
      ensures View() == Send(old(View()), message, fits)
    {
      if disconnected || closed {
        return;
      }
      if !fits {
        closed := true;
        return;
      }
      outbox := outbox + [message];
    }

    method FailProtocol(kept: nat)
      requires kept <= |outbox|
      modifies this`stage, this`closed, this`outbox
      ensures View() == Fail(old(View()), kept)
    {
      if disconnected || stage.Closing? || stage.Closed? {
        return;
      }
      stage := Closing;
      if !closed {
        outbox := outbox[..kept] + [HelloError];
      }
      closed := true;
    }

    /**
     * dispatchMessage: the first message begins the handshake, a later hello fails it.
     * True means a request to handle.
     */
    method DispatchMessage(isHello: bool, supported: bool, revision: Revision) returns (handle: bool)
      requires !Terminal(View())
      modifies this
      ensures old(stage).AwaitingHello? && isHello ==> View() == OnHello(old(View()), supported, revision)
      ensures old(stage).AwaitingHello? != isHello ==> View() == Fail(old(View()), |old(outbox)|)
      ensures !old(stage).AwaitingHello? && !isHello ==> View() == old(View())
      ensures handle <==> !isHello && old(stage).Ready?
    {
      if stage.AwaitingHello? {
        if !isHello {
          FailProtocol(|outbox|);
          return false;
        }
        stage := Handshaking;
        if supported {
          wait := Gathering(revision);
        } else {
          FailProtocol(|outbox|);
        }
        return false;
      }
      if isHello {
        FailProtocol(|outbox|);
        return false;
      }
      return stage.Ready?;
    }

    method FinishGathering(ok: bool, fits: bool, closing: bool)
      requires wait.Gathering?
      modifies this
      ensures View() == OnGathered(old(View()), ok, fits, closing)
    {
      var revision := wait.revision;
      wait := NoWait;
      if !ok {
        FailProtocol(|outbox|);
        return;
      }
      if closing || disconnected || !stage.Handshaking? || closed {
        return;
      }
      SendMessage(Hello(revision), fits);
      wait := SendingHello(revision);
    }

    method FinishHello(sent: bool, current: Revision)
      requires wait.SendingHello?
      modifies this
      ensures View() == OnHelloSent(old(View()), sent, current)
    {
      var revision := wait.revision;
      wait := NoWait;
      if sent && !disconnected && stage.Handshaking? {
        handshakeComplete := true;
        stage := Ready;
        if revision != current {
          wait := CatchingUp(current);
        }
      }
    }

    method FinishCatchUp(ok: bool, fits: bool)
      requires wait.CatchingUp?
      modifies this
      ensures View() == OnCaughtUp(old(View()), ok, fits)
    {
      var revision := wait.revision;
      wait := NoWait;
      if ok {
        SendMessage(Snapshot(revision), fits);
      } else {
        FailProtocol(|outbox|);
      }
    }

    method Disconnect()
      requires disconnected ==> stage.Closed?
      modifies this
      ensures View() == old(View()).(disconnected := true, stage := Closed)
    {
      if disconnected {
        return;
      }
      disconnected := true;
      stage := Closed;
    }
  }

  /** The connections among which are ready, in order. */
  ghost function ReadyOnes(connections: seq<ConnectionState>): (r: seq<ConnectionState>)
    reads connections
    ensures forall i :: 0 <= i < |r| ==> r[i] in connections && IsTarget(r[i].View())
    ensures forall i :: 0 <= i < |connections| && IsTarget(connections[i].View()) ==> connections[i] in r
  {
    if connections == [] then []
    else
      var n := |connections| - 1;
      ReadyOnes(connections[..n]) + if IsTarget(connections[n].View()) then [connections[n]] else []
  }

  lemma ReadyOnesStep(connections: seq<ConnectionState>, i: nat)
    requires i < |connections|
    ensures ReadyOnes(connections[..i + 1])
         == ReadyOnes(connections[..i]) + if IsTarget(connections[i].View()) then [connections[i]] else []
  {
    assert connections[..i + 1][..i] == connections[..i];
  }

  method ReadyConnections(connections: seq<ConnectionState>) returns (ready: seq<ConnectionState>)
    ensures ready == ReadyOnes(connections)
  {
    ready := [];
    assert connections[..0] == [] && ReadyOnes([]) == [];
    hide ReadyOnes;
    for i := 0 to |connections|
      invariant ready == ReadyOnes(connections[..i])
    {
      ReadyOnesStep(connections, i);
      if connections[i].stage.Ready? && !connections[i].disconnected {
        ready := ready + [connections[i]];
      }
    }
    assert connections[..|connections|] == connections;
  }

  ghost function Ids(connections: seq<ConnectionState>): (r: seq<ConnId>)
    ensures |r| == |connections| && forall i :: 0 <= i < |r| ==> r[i] == connections[i].id
  {
    seq(|connections|, i requires 0 <= i < |connections| => connections[i].id)
  }

  /** What the first segment of a broadcast does: the revision moves only if somebody is there to hear of it. */
  function Begun(s: State, targets: seq<ConnId>, closing: bool): State {
    var t := s.(queued := if s.queued > 0 then s.queued - 1 else 0, running := None);
    if targets == [] || closing then t
    else t.(revision := s.revision + 1, running := Some(HandshakeProtocol.Broadcast(s.revision + 1, targets, false)))
  }

  /** The next target has been seen to. */
  function Advanced(s: State): State
    requires s.running.Some? && s.running.value.targets != []
  {
    s.(running := Some(s.running.value.(targets := s.running.value.targets[1..])))
  }

  class ServerSnapshotPublisher {
    var revision: Revision
    /** The broadcasts that wait in the queue. */
    var queued: nat
    /** Of the broadcast that has its revision: that revision, and the connections still to be sent to. */
    var current: Option<Revision>
    var targets: seq<ConnectionState>
    var gathered: bool
    ghost var failed: Option<Revision>
    ghost var missed: set<ConnId>

    ghost function Running(): Option<Broadcast>
      reads this
    {
      if current.None? then None else Some(HandshakeProtocol.Broadcast(current.value, Ids(targets), gathered))
    }

    /** The publisher's part of the server's state. */
    ghost function View(): State
      reads this
    {
      INITIAL.(revision := revision, queued := queued, running := Running(), failed := failed, missed := missed)
    }

    constructor ()
      ensures revision == 0 && queued == 0 && current == None && targets == [] && failed == None && missed == {}
    {
      revision, queued, targets, current, gathered, failed, missed := 0, 0, [], None, false, None, {};
    }

    method Broadcast()
      modifies this`queued
      ensures queued == old(queued) + 1
    {
      queued := queued + 1;
    }

    /** performBroadcast up to its first wait. */
    method Begin(connections: seq<ConnectionState>, closing: bool)
      requires current == None && queued > 0
      modifies this`queued, this`targets, this`revision, this`current, this`gathered
      ensures targets == if closing then [] else old(ReadyOnes(connections))
      ensures View() == Begun(old(View()), Ids(old(ReadyOnes(connections))), closing)
    {
      var ready := ReadyConnections(connections);
      assert ready == [] <==> Ids(ready) == [];
      hide ReadyOnes, Ids;
      queued, targets, gathered := queued - 1, [], false;
      if ready != [] && !closing {
        targets, revision, current := ready, revision + 1, Some(revision + 1);
      }
    }

    /** The snapshot is there; or it could not be put together, and the targets hear nothing of this revision. */
    method Gather(ok: bool)
      requires current.Some? && !gathered
      modifies this
      ensures revision == old(revision) && queued == old(queued)
      ensures ok ==> gathered && current == old(current) && targets == old(targets)
      ensures ok ==> failed == old(failed) && missed == old(missed)
      ensures !ok ==> current == None && targets == []
      ensures !ok ==> failed == old(current) && missed == set c | c in Ids(old(targets))
    {
      if ok {
        gathered := true;
        return;
      }
      failed, missed := current, set c | c in Ids(targets);
      current, targets := None, [];
    }

    /** One round of the loop that sends the snapshot. */
    method SendNext(fits: bool)
      requires current.Some? && gathered && targets != []
      modifies this`targets, targets[0]
      ensures targets == old(targets)[1..] && View() == Advanced(old(View()))
      ensures old(targets)[0].View() == Send(old(targets[0].View()), Snapshot(current.value), fits)
    {
      assert Ids(targets)[1..] == Ids(targets[1..]);
      targets[0].SendMessage(Snapshot(current.value), fits);
      targets := targets[1..];
    }

    method End()
      requires current.Some? && gathered && targets == []
      modifies this`current
      ensures current == None
    {
      current := None;
    }
  }
}
