/** The server: its connections and its publisher together take the steps of the handshake protocol. */
module PiServers {
  import opened Common
  import opened HandshakeProtocol
  import opened HandshakeSafety
  import opened ServerConnections

  /** A step that is about one connection. */
  ghost predicate StepsAt(s: State, e: Event, c: ConnId, k: Conn) {
    Enabled(s, e) && Apply(s, e) == Change(s, c, k) && Inv(Change(s, c, k))
  }

  lemma HandshakeStep(s: State, e: Event)
    requires Inv(s) && Enabled(s, e) && (e.ClientHello? || e.Gathered? || e.HelloSent? || e.CaughtUp?)
    ensures var k := s.conns[e.c];
            StepsAt(s, e, e.c, match e
                               case ClientHello(_, supported) => OnHello(k, supported, s.revision)
                               case Gathered(_, ok, fits) => OnGathered(k, ok, fits, s.closing)
                               case HelloSent(_, sent) => OnHelloSent(k, sent, s.revision)
                               case CaughtUp(_, ok, fits) => OnCaughtUp(k, ok, fits))
  {
    hide Inv, OnHello, OnGathered, OnHelloSent, OnCaughtUp;
    StepKeepsInv(s, e);
  }

  lemma OtherStep(s: State, e: Event)
    requires Inv(s) && Enabled(s, e)
    requires e.ProtocolFailure? || e.SendOther? || e.TransportCloses? || e.Disconnect? || e.StopConnection?
    ensures var k := s.conns[e.c];
            StepsAt(s, e, e.c, match e
                               case ProtocolFailure(_, kept) => Fail(k, kept)
                               case SendOther(_, fits) => Send(k, Other, fits)
                               case TransportCloses(_) => k.(closed := true)
                               case Disconnect(_) => k.(disconnected := true, stage := Closed)
                               case StopConnection(_) => k.(stage := Closing, closed := true))
  {
    hide Inv, Fail, Send;
    StepKeepsInv(s, e);
  }

  lemma ClosedOnceDisconnected(s: State, c: ConnId)
    requires Inv(s) && c in s.conns
    ensures s.conns[c].disconnected ==> s.conns[c].stage.Closed?
  {
    assert ConnInv(s, c);
  }

  /** What the order of messages makes of one: the step it takes, or none. */
  function Dispatched(k: Conn, c: ConnId, isHello: bool, supported: bool): Option<Event> {
    if k.stage.AwaitingHello? && isHello then Some(ClientHello(c, supported))
    else if k.stage.AwaitingHello? || isHello then Some(ProtocolFailure(c, |k.outbox|))
    else None
  }

  lemma DispatchStep(s: State, c: ConnId, isHello: bool, supported: bool)
    requires Inv(s) && c in s.conns && !Terminal(s.conns[c])
    ensures var e := Dispatched(s.conns[c], c, isHello, supported);
            if e.None? then Change(s, c, s.conns[c]) == s
            else StepsAt(s, e.value, c, if e.value.ClientHello? then OnHello(s.conns[c], supported, s.revision)
                                        else Fail(s.conns[c], |s.conns[c].outbox|))
  {
    assert ConnInv(s, c);
    hide Inv, StepsAt, Fail, OnHello;
    var e := Dispatched(s.conns[c], c, isHello, supported);
    if e == Some(ClientHello(c, supported)) {
      HandshakeStep(s, e.value);
    } else if e.Some? {
      OtherStep(s, e.value);
    } else {
      assert s.conns[c := s.conns[c]] == s.conns;
    }
  }

  /** A connection is told to stop, unless it is disconnected. */
  function StoppedAt(s: State, c: ConnId): State {
    if c !in s.conns || s.conns[c].disconnected then s
    else Change(s, c, s.conns[c].(stage := Closing, closed := true))
  }

  function StoppedUpTo(s: State, n: nat): State {
    if n == 0 then s else StoppedAt(StoppedUpTo(s, n - 1), n - 1)
  }

  lemma {:induction false} EachIsStopped(s: State, n: nat)
    ensures var k := StoppedUpTo(s, n);
            && k == s.(conns := k.conns) && k.conns.Keys == s.conns.Keys
            && forall c <- s.conns ::
                 k.conns[c] == if c < n && !s.conns[c].disconnected then s.conns[c].(stage := Closing, closed := true)
                               else s.conns[c]
  {
    if n > 0 {
      EachIsStopped(s, n - 1);
    }
  }

  lemma AcceptStep(s: State, c: ConnId)
    requires Inv(s) && c !in s.conns && !s.closing
    ensures StepsAt(s, Event.Accept(c), c, ACCEPTED)
  {
    hide Inv;
    StepKeepsInv(s, Event.Accept(c));
  }

  lemma SendStep(s: State, fits: bool)
    requires Inv(s) && s.running.Some? && s.running.value.gathered && s.running.value.targets != []
    ensures Enabled(s, SendSnapshot(fits))
    ensures var b := s.running.value;
            var s' := Change(Advanced(s), b.targets[0], Send(s.conns[b.targets[0]], Snapshot(b.revision), fits));
            Apply(s, SendSnapshot(fits)) == s' && Inv(s')
  {
    assert s.running.value.targets[0] in s.running.value.targets;
    hide Inv, Send;
    StepKeepsInv(s, SendSnapshot(fits));
  }

  lemma StartStep(s: State, targets: seq<ConnId>)
    requires Inv(s) && Enabled(s, StartBroadcast(targets))
    ensures var t := Apply(s, StartBroadcast(targets));
            Inv(t) && t == Begun(s, targets, s.closing)
  {
    hide Inv;
    StepKeepsInv(s, StartBroadcast(targets));
  }

  class PiServer {
    /** Every connection ever accepted, in order; a connection is named by its place. */
    var connections: seq<ConnectionState>
    const snapshots: ServerSnapshotPublisher
    var closing: bool

    ghost function Conns(): (r: map<ConnId, Conn>)
      reads this, connections
      ensures forall c: ConnId :: c in r <==> c < |connections|
      ensures forall c <- r :: r[c] == connections[c].View()
    {
      map c: ConnId | c < |connections| :: connections[c].View()
    }

    ghost function View(): State
      reads this, connections, snapshots
    {
      snapshots.View().(conns := Conns(), closing := closing)
    }

    ghost predicate Valid()
      reads this, connections, snapshots
    {
      && (forall c :: 0 <= c < |connections| ==> connections[c].id == c)
      && (forall t <- snapshots.targets :: t.id < |connections| && connections[t.id] == t)
      && Inv(View())
    }

    constructor ()
      ensures Valid() && fresh(snapshots) && View() == INITIAL
    {
      connections, closing := [], false;
      snapshots := new ServerSnapshotPublisher();
      new;
      assert Conns() == map[];
    }

    /** accept(): None when the server is closing. */
    method Accept() returns (c: Option<ConnId>)
      requires Valid()
      modifies this`connections
      ensures Valid() && if closing then c == None && View() == old(View())
              else c == Some(|old(connections)|) && View() == Apply(old(View()), Event.Accept(c.value))
      ensures !closing ==> |connections| == |old(connections)| + 1 && fresh(connections[|old(connections)|])
    {
      if closing {
        return None;
      }
      hide Inv, Apply, Enabled, Conns;
      var id := |connections|;
      AcceptStep(View(), id);
      var state := new ConnectionState(id);
      connections := connections + [state];
      OneMore(state);
      return Some(id);
    }

    /** Of the connections only one has changed. */
    twostate lemma OneChanged(c: ConnId)
      requires old(Valid()) && c < |connections| && connections == old(connections)
      requires forall d <- connections :: d.id != c ==> unchanged(d)
      ensures Conns() == old(Conns())[c := connections[c].View()]
    {
      hide Inv;
    }

    twostate lemma OnlyChanged(c: ConnId)
      requires old(Valid()) && c < |connections| && unchanged(this) && unchanged(snapshots)
      requires forall d <- connections :: d.id != c ==> unchanged(d)
      ensures View() == Change(old(View()), c, connections[c].View())
      ensures Inv(View()) ==> Valid()
    {
      hide Inv, Conns;
      OneChanged(c);
    }

    twostate lemma OneMore(new k: ConnectionState)
      requires connections == old(connections) + [k] && k.View() == ACCEPTED
      requires forall c :: 0 <= c < |old(connections)| ==> unchanged(old(connections)[c])
      ensures Conns() == old(Conns())[|old(connections)| := ACCEPTED]
    {
      forall c: ConnId | c < |old(connections)| ensures Conns()[c] == old(Conns())[c] {
        assert connections[c] == old(connections)[c];
      }
    }

    /** dispatchMessage: True means a request to handle. */
    method DispatchMessage(c: ConnId, isHello: bool, supported: bool) returns (handle: bool)
      requires Valid() && c < |connections| && !Terminal(connections[c].View())
      modifies connections[c]
      ensures Valid()
      ensures match Dispatched(old(connections[c].View()), c, isHello, supported)
              case Some(e) => Enabled(old(View()), e) && View() == Apply(old(View()), e) && !handle
              case None => View() == old(View()) && handle == old(connections[c].stage).Ready?
    {
      DispatchStep(View(), c, isHello, supported);
      hide Inv, Apply, Enabled;
      handle := connections[c].DispatchMessage(isHello, supported, snapshots.revision);
      OnlyChanged(c);
    }

    method FinishGathering(c: ConnId, ok: bool, fits: bool)
      requires Valid() && Enabled(View(), Gathered(c, ok, fits))
      modifies connections[c]
      ensures Valid() && View() == Apply(old(View()), Gathered(c, ok, fits))
    {
      HandshakeStep(View(), Gathered(c, ok, fits));
      hide Inv, Apply;
      connections[c].FinishGathering(ok, fits, closing);
      OnlyChanged(c);
    }

    method FinishHello(c: ConnId, sent: bool)
      requires Valid() && Enabled(View(), HelloSent(c, sent))
      modifies connections[c]
      ensures Valid() && View() == Apply(old(View()), HelloSent(c, sent))
    {
      HandshakeStep(View(), HelloSent(c, sent));
      hide Inv, Apply;
      connections[c].FinishHello(sent, snapshots.revision);
      OnlyChanged(c);
    }

    method FinishCatchUp(c: ConnId, ok: bool, fits: bool)
      requires Valid() && Enabled(View(), CaughtUp(c, ok, fits))
      modifies connections[c]
      ensures Valid() && View() == Apply(old(View()), CaughtUp(c, ok, fits))
    {
      HandshakeStep(View(), CaughtUp(c, ok, fits));
      hide Inv, Apply;
      connections[c].FinishCatchUp(ok, fits);
      OnlyChanged(c);
    }

    method FailProtocol(c: ConnId, kept: nat)
      requires Valid() && Enabled(View(), ProtocolFailure(c, kept))
      modifies connections[c]
      ensures Valid() && View() == Apply(old(View()), ProtocolFailure(c, kept))
    {
      OtherStep(View(), ProtocolFailure(c, kept));
      hide Inv, Apply;
      connections[c].FailProtocol(kept);
      OnlyChanged(c);
    }

    /** A response, or an event of a session. */
    method SendMessage(c: ConnId, fits: bool)
      requires Valid() && Enabled(View(), SendOther(c, fits))
      modifies connections[c]
      ensures Valid() && View() == Apply(old(View()), SendOther(c, fits))
    {
      OtherStep(View(), SendOther(c, fits));
      hide Inv, Apply;
      connections[c].SendMessage(Other, fits);
      OnlyChanged(c);
    }

    /** The transport accepts nothing more. */
    method TransportCloses(c: ConnId)
      requires Valid() && c < |connections|
      modifies connections[c]
      ensures Valid() && View() == Apply(old(View()), Event.TransportCloses(c))
    {
      OtherStep(View(), Event.TransportCloses(c));
      hide Inv, Apply;
      connections[c].closed := true;
      OnlyChanged(c);
    }

    method Disconnect(c: ConnId)
      requires Valid() && c < |connections|
      modifies connections[c]
      ensures Valid() && View() == Apply(old(View()), Event.Disconnect(c))
    {
      ClosedOnceDisconnected(View(), c);
      OtherStep(View(), Event.Disconnect(c));
      hide Inv, Apply;
      connections[c].Disconnect();
      OnlyChanged(c);
    }

    method StopConnection(c: ConnId)
      requires Valid() && c < |connections| && closing
      modifies connections[c]
      ensures Valid() && View() == StoppedAt(old(View()), c)
    {
      if connections[c].disconnected {
        return;
      }
      OtherStep(View(), Event.StopConnection(c));
      hide Inv, Apply, Enabled;
      connections[c].stage, connections[c].closed := Closing, true;
      OnlyChanged(c);
    }

    /** closeServerState, up to its first wait. */
    method CloseServerState()
      requires Valid() && closing
      modifies connections
      ensures Valid() && View() == StoppedUpTo(old(View()), |connections|)
    {
      ghost var before := View();
      hide StoppedAt;
      for i := 0 to |connections|
        invariant Valid() && View() == StoppedUpTo(before, i)
      {
        StopConnection(i);
      }
    }

    /** Only the publisher has changed, or the server has begun to close. */
    twostate lemma SameConnections()
      requires old(Valid()) && connections == old(connections)
      requires forall c :: 0 <= c < |connections| ==> unchanged(connections[c])
      ensures Conns() == old(Conns())
    {
      assert forall c: ConnId :: c < |connections| ==> connections[c].View() == old(connections[c].View());
    }

    method Close()
      requires Valid()
      modifies this`closing
      ensures Valid() && View() == Apply(old(View()), BeginClose)
    {
      StepKeepsInv(View(), BeginClose);
      hide Inv;
      closing := true;
      SameConnections();
    }

    method Broadcast()
      requires Valid()
      modifies snapshots
      ensures Valid() && View() == Apply(old(View()), RequestBroadcast)
    {
      StepKeepsInv(View(), RequestBroadcast);
      hide Inv;
      snapshots.Broadcast();
      SameConnections();
    }

    /** performBroadcast up to its first wait. */
    method BeginBroadcast()
      requires Valid() && snapshots.queued > 0 && snapshots.current.None?
      modifies snapshots
      ensures Valid()
      ensures var e := StartBroadcast(Ids(old(ReadyOnes(connections))));
              Enabled(old(View()), e) && View() == Apply(old(View()), e)
    {
      ReadyIds();
      hide Inv, ReadyOnes, Apply, Enabled, Conns;
      ghost var ready := ReadyOnes(connections);
      ghost var after := Apply(View(), StartBroadcast(Ids(ready)));
      StartStep(View(), Ids(ready));
      snapshots.Begin(connections, closing);
      SameConnections();
      assert View() == after;
    }

    lemma ReadyIds()
      requires Valid() && snapshots.queued > 0 && snapshots.current.None?
      ensures Enabled(View(), StartBroadcast(Ids(ReadyOnes(connections))))
      ensures forall t <- ReadyOnes(connections) :: t.id < |connections| && connections[t.id] == t
    {
      hide Inv;
      var ready := ReadyOnes(connections);
      forall c: ConnId | c < |connections| && IsTarget(connections[c].View()) ensures c in Ids(ready) {
        var i :| 0 <= i < |ready| && ready[i] == connections[c];
        assert Ids(ready)[i] == c;
      }
    }

    method BroadcastGathered(ok: bool)
      requires Valid() && snapshots.current.Some? && !snapshots.gathered
      modifies snapshots
      ensures Valid() && View() == Apply(old(View()), Event.BroadcastGathered(ok))
    {
      StepKeepsInv(View(), Event.BroadcastGathered(ok));
      hide Inv;
      snapshots.Gather(ok);
      SameConnections();
    }

    method EndBroadcast()
      requires Valid() && snapshots.current.Some? && snapshots.gathered && snapshots.targets == []
      modifies snapshots
      ensures Valid() && View() == Apply(old(View()), Event.EndBroadcast)
    {
      StepKeepsInv(View(), Event.EndBroadcast);
      hide Inv;
      snapshots.End();
      SameConnections();
    }

    /** One round of the loop that sends the snapshot. */
    method SendSnapshot(fits: bool)
      requires Valid() && snapshots.current.Some? && snapshots.gathered && snapshots.targets != []
      modifies snapshots, snapshots.targets[0]
      ensures Valid() && View() == Apply(old(View()), Event.SendSnapshot(fits))
    {
      ghost var c := snapshots.targets[0].id;
      assert Ids(snapshots.targets)[0] == c;
      hide Inv, Apply, Enabled, Conns, Send, Ids;
      SendStep(View(), fits);
      ghost var after := Apply(View(), Event.SendSnapshot(fits));
      ghost var target := snapshots.targets[0];
      snapshots.SendNext(fits);
      OneChanged(c);
      assert connections[c] == target && View() == after;
    }
  }
}
