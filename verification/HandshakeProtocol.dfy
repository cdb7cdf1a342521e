/**
 * The server's side of connections up to the messages it puts on each of them: stages, the handshake and
 * its two waits, protocol failures, and the snapshot broadcasts, which run one after the other.
 */
module HandshakeProtocol {
  import opened Common

  type ConnId = nat
  type Revision = nat

  datatype Stage = AwaitingHello | Handshaking | Ready | Closing | Closed

  datatype Message = Hello(revision: Revision) | HelloError | Snapshot(revision: Revision) | Other

  /** Where finishHandshake waits: for the snapshot, for the hello to be sent, for the snapshot that catches up. */
  datatype Wait = NoWait | Gathering(revision: Revision) | SendingHello(revision: Revision)
      | CatchingUp(revision: Revision)

  /** closed: the transport accepts nothing more. outbox: what it has accepted and not given up since. */
  datatype Conn = Conn(stage: Stage, disconnected: bool, closed: bool, handshakeComplete: bool, wait: Wait,
                       outbox: seq<Message>)

  /** A broadcast that has its revision; targets are the connections still to be sent to. */
  datatype Broadcast = Broadcast(revision: Revision, targets: seq<ConnId>, gathered: bool)

  /** failed: the last revision whose snapshot could not be put together; missed: who was to be sent it. */
  datatype State = State(
    conns: map<ConnId, Conn>, revision: Revision, closing: bool, queued: nat, running: Option<Broadcast>,
    failed: Option<Revision>, missed: set<ConnId>)

  datatype Event =
    | Accept(c: ConnId)
    | ClientHello(c: ConnId, supported: bool)
    | Gathered(c: ConnId, ok: bool, fits: bool)
    | HelloSent(c: ConnId, sent: bool)
    | CaughtUp(c: ConnId, ok: bool, fits: bool)
    | ProtocolFailure(c: ConnId, kept: nat)
    | SendOther(c: ConnId, fits: bool)
    | TransportCloses(c: ConnId)
    | Disconnect(c: ConnId)
    | RequestBroadcast
    | StartBroadcast(targets: seq<ConnId>)
    | BroadcastGathered(ok: bool)
    | SendSnapshot(fits: bool)
    | EndBroadcast
    | BeginClose
    | StopConnection(c: ConnId)

  const INITIAL := State(map[], 0, false, 0, None, None, {})
  const ACCEPTED := Conn(AwaitingHello, false, false, false, NoWait, [])

  predicate Terminal(k: Conn) {
    k.disconnected || k.stage.Closing? || k.stage.Closed?
  }

  /** sendMessage up to the transport: a message that does not fit closes the connection. */
  function Send(k: Conn, m: Message, fits: bool): Conn {
    if k.disconnected || k.closed then k
    else if fits then k.(outbox := k.outbox + [m])
    else k.(closed := true)
  }

  /** failProtocol: the error is the last chunk; of what was accepted before, the transport may give up a part. */
  function Fail(k: Conn, kept: nat): Conn
    requires kept <= |k.outbox|
  {
    if Terminal(k) then k
    else k.(stage := Closing, closed := true, outbox := if k.closed then k.outbox else k.outbox[..kept] + [HelloError])
  }

  function OnHello(k: Conn, supported: bool, revision: Revision): Conn
    requires k.stage.AwaitingHello?
  {
    if supported then k.(stage := Handshaking, wait := Gathering(revision))
    else Fail(k.(stage := Handshaking), |k.outbox|)
  }

  /** The snapshot is there, or could not be had, which fails the protocol. */
  function OnGathered(k: Conn, ok: bool, fits: bool, closing: bool): Conn
    requires k.wait.Gathering?
  {
    var t := k.(wait := NoWait);
    if !ok then Fail(t, |t.outbox|)
    else if closing || k.disconnected || !k.stage.Handshaking? || k.closed then t
    else Send(t, Hello(k.wait.revision), fits).(wait := SendingHello(k.wait.revision))
  }

  function OnHelloSent(k: Conn, sent: bool, revision: Revision): Conn
    requires k.wait.SendingHello?
  {
    var t := k.(wait := NoWait);
    if !sent || k.disconnected || !k.stage.Handshaking? then t
    else t.(handshakeComplete := true, stage := Ready,
            wait := if k.wait.revision != revision then CatchingUp(revision) else NoWait)
  }

  function OnCaughtUp(k: Conn, ok: bool, fits: bool): Conn
    requires k.wait.CatchingUp?
  {
    var t := k.(wait := NoWait);
    if ok then Send(t, Snapshot(k.wait.revision), fits) else Fail(t, |t.outbox|)
  }

  predicate IsTarget(k: Conn) {
    k.stage.Ready? && !k.disconnected
  }

  function Change(s: State, c: ConnId, k: Conn): State {
    s.(conns := s.conns[c := k])
  }

  ghost predicate Enabled(s: State, e: Event) {
    match e
    case Accept(c) => c !in s.conns && !s.closing
    case ClientHello(c, _) => c in s.conns && !Terminal(s.conns[c]) && s.conns[c].stage.AwaitingHello?
    case Gathered(c, _, _) => c in s.conns && s.conns[c].wait.Gathering?
    case HelloSent(c, sent) => c in s.conns && s.conns[c].wait.SendingHello?
      && (sent ==> s.conns[c].outbox != [] && s.conns[c].outbox[0].Hello?)
    case CaughtUp(c, _, _) => c in s.conns && s.conns[c].wait.CatchingUp?
    case ProtocolFailure(c, kept) => c in s.conns && kept <= |s.conns[c].outbox|
      && (s.conns[c].handshakeComplete ==> kept > 0)
    case SendOther(c, _) => c in s.conns && s.conns[c].handshakeComplete
    case TransportCloses(c) => c in s.conns
    case Disconnect(c) => c in s.conns
    case RequestBroadcast => true
    case StartBroadcast(targets) =>
      && s.queued > 0 && s.running.None?
      && forall c :: c in targets <==> c in s.conns && IsTarget(s.conns[c])
    case BroadcastGathered(_) => s.running.Some? && !s.running.value.gathered
    case SendSnapshot(_) => s.running.Some? && s.running.value.gathered && s.running.value.targets != []
      && s.running.value.targets[0] in s.conns
    case EndBroadcast => s.running.Some? && s.running.value.gathered && s.running.value.targets == []
    case BeginClose => true
    case StopConnection(c) => c in s.conns && s.closing && !s.conns[c].disconnected
  }

  function Apply(s: State, e: Event): State
    requires Enabled(s, e)
  {
    match e
    case Accept(c) => Change(s, c, ACCEPTED)
    case ClientHello(c, supported) => Change(s, c, OnHello(s.conns[c], supported, s.revision))
    case Gathered(c, ok, fits) => Change(s, c, OnGathered(s.conns[c], ok, fits, s.closing))
    case HelloSent(c, sent) => Change(s, c, OnHelloSent(s.conns[c], sent, s.revision))
    case CaughtUp(c, ok, fits) => Change(s, c, OnCaughtUp(s.conns[c], ok, fits))
    case ProtocolFailure(c, kept) => Change(s, c, Fail(s.conns[c], kept))
    case SendOther(c, fits) => Change(s, c, Send(s.conns[c], Other, fits))
    case TransportCloses(c) => Change(s, c, s.conns[c].(closed := true))
    case Disconnect(c) => Change(s, c, s.conns[c].(disconnected := true, stage := Closed))
    case RequestBroadcast => s.(queued := s.queued + 1)
    case StartBroadcast(targets) =>
      var t := s.(queued := s.queued - 1);
      if targets == [] || s.closing then t
      else t.(revision := s.revision + 1, running := Some(Broadcast(s.revision + 1, targets, false)))
    case BroadcastGathered(ok) =>
      if ok then s.(running := Some(s.running.value.(gathered := true)))
      else s.(running := None, failed := Some(s.running.value.revision), missed := set c | c in s.running.value.targets)
    case SendSnapshot(fits) =>
      var b := s.running.value;
      Change(s.(running := Some(b.(targets := b.targets[1..]))), b.targets[0],
             Send(s.conns[b.targets[0]], Snapshot(b.revision), fits))
    case EndBroadcast => s.(running := None)
    case BeginClose => s.(closing := true)
    case StopConnection(c) => Change(s, c, s.conns[c].(stage := Closing, closed := true))
  }

  ghost predicate Execution(states: seq<State>, events: seq<Event>) {
    && |states| == |events| + 1 && states[0] == INITIAL
    && forall i :: 0 <= i < |events| ==> Enabled(states[i], events[i]) && states[i + 1] == Apply(states[i], events[i])
  }
}

/** What every run keeps of the messages on a connection and of the revisions they carry. */
module HandshakeSafety {
  import opened Common
  import opened HandshakeProtocol

  /** First comes a hello or its refusal; there is one hello at most, and a refused client gets nothing more. */
  ghost predicate ShapeOk(outbox: seq<Message>) {
    && (outbox != [] ==> outbox[0].Hello? || outbox == [HelloError])
    && forall i :: 0 < i < |outbox| ==> !outbox[i].Hello?
  }

  ghost predicate ConnOk(k: Conn) {
    && ShapeOk(k.outbox)
    && (k.handshakeComplete ==> k.outbox != [] && k.outbox[0].Hello?)
    && (k.stage.Ready? ==> k.handshakeComplete)
    && (k.stage.AwaitingHello? ==> k.wait.NoWait? && k.outbox == [])
    && (k.stage.Handshaking? ==> !k.handshakeComplete && !k.wait.CatchingUp?)
    && (k.stage.Handshaking? && k.wait.Gathering? ==> k.outbox == [])
    && (k.stage.Handshaking? ==> |k.outbox| <= 1 && (k.outbox != [] ==> k.outbox[0].Hello?))
    && (k.stage.Handshaking? && k.wait.SendingHello? && k.outbox != [] ==> k.outbox[0].revision == k.wait.revision)
    && (k.handshakeComplete ==> k.wait.NoWait? || k.wait.CatchingUp?)
    && (k.wait.CatchingUp? ==> k.handshakeComplete)
    && (k.disconnected ==> k.stage.Closed?)
  }

  lemma SendOk(k: Conn, m: Message, fits: bool)
    requires ConnOk(k) && k.handshakeComplete && !m.Hello?
    ensures ConnOk(Send(k, m, fits))
  {
  }

  lemma FailOk(k: Conn, kept: nat)
    requires ConnOk(k) && kept <= |k.outbox| && (k.handshakeComplete ==> kept > 0)
    ensures ConnOk(Fail(k, kept))
  {
  }

  lemma HandshakeOk(k: Conn, e: Event, s: State)
    requires ConnOk(k) && Enabled(s, e) && (e.ClientHello? || e.Gathered? || e.HelloSent? || e.CaughtUp?)
             && k == s.conns[e.c]
    ensures ConnOk(Apply(s, e).conns[e.c])
  {
    match e
    case ClientHello(_, supported) =>
    case Gathered(_, ok, fits) =>
    case HelloSent(_, sent) =>
    case CaughtUp(_, ok, fits) =>
  }

  lemma StepKeepsConn(s: State, e: Event, c: ConnId)
    requires Enabled(s, e) && (c in s.conns ==> ConnOk(s.conns[c])) && c in Apply(s, e).conns
    requires e.SendSnapshot? ==> s.running.value.targets[0] == c ==> s.conns[c].handshakeComplete
    ensures ConnOk(Apply(s, e).conns[c])
  {
    hide ConnOk, Send, Fail, OnHello, OnGathered, OnHelloSent, OnCaughtUp;
    match e
    case ClientHello(d, _) =>
      if d == c {
        HandshakeOk(s.conns[c], e, s);
      }
    case Gathered(d, _, _) =>
      if d == c {
        HandshakeOk(s.conns[c], e, s);
      }
    case HelloSent(d, _) =>
      if d == c {
        HandshakeOk(s.conns[c], e, s);
      }
    case CaughtUp(d, _, _) =>
      if d == c {
        HandshakeOk(s.conns[c], e, s);
      }
    case ProtocolFailure(d, kept) =>
      if d == c {
        FailOk(s.conns[c], kept);
      }
    case SendOther(d, fits) =>
      if d == c {
        SendOk(s.conns[c], Other, fits);
      }
    case SendSnapshot(fits) =>
      if s.running.value.targets[0] == c {
        SendOk(s.conns[c], Snapshot(s.running.value.revision), fits);
      }
    case _ =>
      if c in s.conns {
        EndsOk(s.conns[c]);
      }
      AcceptedOk();
  }

  lemma EndsOk(k: Conn)
    requires ConnOk(k)
    ensures ConnOk(k.(closed := true)) && ConnOk(k.(disconnected := true, stage := Closed))
    ensures !k.disconnected ==> ConnOk(k.(stage := Closing, closed := true))
  {
  }

  lemma AcceptedOk()
    ensures ConnOk(ACCEPTED)
  {
  }

  /** The highest revision among the messages, or -1. */
  function Highest(outbox: seq<Message>): int {
    if outbox == [] then -1
    else
      var rest := Highest(outbox[..|outbox| - 1]);
      match outbox[|outbox| - 1]
      case Hello(r) => if r > rest then r else rest
      case Snapshot(r) => if r > rest then r else rest
      case _ => rest
  }

  lemma HighestAppend(outbox: seq<Message>, m: Message)
    ensures Highest(outbox) <= Highest(outbox + [m])
    ensures m.Hello? || m.Snapshot? ==>
            Highest(outbox + [m]) == if m.revision > Highest(outbox) then m.revision else Highest(outbox)
    ensures m.HelloError? || m.Other? ==> Highest(outbox + [m]) == Highest(outbox)
  {
    assert (outbox + [m])[..|outbox|] == outbox;
  }

  lemma {:induction false} HighestPrefix(outbox: seq<Message>, n: nat)
    requires n <= |outbox|
    ensures Highest(outbox[..n]) <= Highest(outbox)
  {
    if n < |outbox| {
      var init := outbox[..|outbox| - 1];
      HighestPrefix(init, n);
      assert init[..n] == outbox[..n];
    } else {
      assert outbox[..n] == outbox;
    }
  }

  /** No message and no wait carries a revision beyond the current one. */
  ghost predicate Bounded(k: Conn, revision: Revision) {
    && Highest(k.outbox) <= revision
    && (k.wait.Gathering? || k.wait.SendingHello? || k.wait.CatchingUp? ==> k.wait.revision <= revision)
  }

  /** A client that is listening has been sent the current revision, or will be, unless its broadcast failed. */
  ghost predicate Served(s: State, c: ConnId)
    requires c in s.conns
  {
    var k := s.conns[c];
    k.stage.Ready? && !k.disconnected && !k.closed ==>
      || Highest(k.outbox) == s.revision
      || k.wait == CatchingUp(s.revision)
      || (s.running.Some? && c in s.running.value.targets)
      || (s.failed == Some(s.revision) && c in s.missed)
  }

  /** A client that will not hear of the revision unless it is broadcast to it. */
  ghost predicate Behind(k: Conn, revision: Revision) {
    k.handshakeComplete && Highest(k.outbox) < revision && (k.wait.CatchingUp? ==> k.wait.revision < revision)
  }

  /** Until the snapshot of a broadcast is there its targets are behind, and so are those of one that failed. */
  ghost predicate BehindOk(s: State, c: ConnId)
    requires c in s.conns
  {
    && (s.running.Some? && !s.running.value.gathered && c in s.running.value.targets ==> Behind(s.conns[c], s.revision))
    && (s.failed == Some(s.revision) && c in s.missed ==> Behind(s.conns[c], s.revision))
  }

  ghost predicate RunningOk(s: State) {
    && (s.failed.Some? ==> s.failed.value <= s.revision)
    && (forall c <- s.missed :: c in s.conns)
    && (s.running.Some? ==>
      && s.running.value.revision == s.revision && (s.failed.Some? ==> s.failed.value < s.revision)
      && forall c <- s.running.value.targets :: c in s.conns && s.conns[c].handshakeComplete)
  }

  ghost predicate ConnInv(s: State, c: ConnId)
    requires c in s.conns
  {
    ConnOk(s.conns[c]) && Bounded(s.conns[c], s.revision) && Served(s, c) && BehindOk(s, c)
  }

  ghost predicate Inv(s: State) {
    RunningOk(s) && forall c <- s.conns :: ConnInv(s, c)
  }

  lemma SendBounded(k: Conn, m: Message, fits: bool, revision: Revision)
    requires Bounded(k, revision) && (m.Hello? || m.Snapshot? ==> m.revision <= revision)
    ensures Bounded(Send(k, m, fits), revision) && Highest(k.outbox) <= Highest(Send(k, m, fits).outbox)
    ensures !k.disconnected && !Send(k, m, fits).closed && (m.Hello? || m.Snapshot?) && m.revision == revision ==>
              Highest(Send(k, m, fits).outbox) == revision
  {
    HighestAppend(k.outbox, m);
  }

  lemma FailBounded(k: Conn, kept: nat, revision: Revision)
    requires Bounded(k, revision) && kept <= |k.outbox|
    ensures Bounded(Fail(k, kept), revision) && (Fail(k, kept).stage.Ready? ==> Fail(k, kept) == k)
  {
    HighestPrefix(k.outbox, kept);
    HighestAppend(k.outbox[..kept], HelloError);
  }

  /** The steps of the handshake keep the bounds, and a client that becomes ready is served. */
  lemma HandshakeServes(s: State, e: Event, c: ConnId)
    requires Enabled(s, e) && (e.ClientHello? || e.Gathered? || e.HelloSent? || e.CaughtUp?) && e.c == c
             && ConnInv(s, c)
    ensures Bounded(Apply(s, e).conns[c], s.revision) && Served(Apply(s, e), c)
  {
    hide Highest;
    var k := s.conns[c];
    match e
    case ClientHello(_, supported) => FailBounded(k.(stage := Handshaking), |k.outbox|, s.revision);
    case Gathered(_, ok, fits) =>
      FailBounded(k.(wait := NoWait), |k.outbox|, s.revision);
      SendBounded(k.(wait := NoWait), Hello(k.wait.revision), fits, s.revision);
    case HelloSent(_, sent) =>
      if k.stage.Handshaking? && sent {
        HelloIsHighest(k);
      }
    case CaughtUp(_, ok, fits) =>
      FailBounded(k.(wait := NoWait), |k.outbox|, s.revision);
      SendBounded(k.(wait := NoWait), Snapshot(k.wait.revision), fits, s.revision);
  }

  lemma HelloIsHighest(k: Conn)
    requires ConnOk(k) && k.stage.Handshaking? && k.wait.SendingHello? && k.outbox != []
    ensures Highest(k.outbox) == k.wait.revision
  {
    assert k.outbox[..0] == [];
  }

  /** A step that is not about the connection, and does not touch broadcasts, leaves it served. */
  lemma OthersServed(s: State, s': State, c: ConnId)
    requires c in s.conns && c in s'.conns && s'.conns[c] == s.conns[c] && ConnInv(s, c)
    requires s'.revision == s.revision && s'.running == s.running && s'.failed == s.failed && s'.missed == s.missed
    ensures ConnInv(s', c)
  {
  }

  /** Nothing but a broadcast brings a client that is behind forward. */
  lemma StaysBehind(s: State, e: Event, c: ConnId)
    requires Enabled(s, e) && c in s.conns && ConnOk(s.conns[c]) && Behind(s.conns[c], s.revision)
    requires !e.StartBroadcast? && !e.SendSnapshot? && c in Apply(s, e).conns
    ensures Behind(Apply(s, e).conns[c], s.revision)
  {
    hide Highest, ShapeOk;
    var k := s.conns[c];
    if e.CaughtUp? && e.c == c {
      HighestAppend(k.outbox, Snapshot(k.wait.revision));
      FailBehind(k.(wait := NoWait), |k.outbox|);
    } else if e.ProtocolFailure? && e.c == c {
      FailBehind(k, e.kept);
    } else if e.SendOther? && e.c == c {
      HighestAppend(k.outbox, Other);
    }
  }

  lemma FailBehind(k: Conn, kept: nat)
    requires kept <= |k.outbox|
    ensures Highest(Fail(k, kept).outbox) <= Highest(k.outbox)
  {
    HighestPrefix(k.outbox, kept);
    HighestAppend(k.outbox[..kept], HelloError);
  }

  lemma ReadyOk(k: Conn)
    requires ConnOk(k) && k.stage.Ready?
    ensures k.handshakeComplete && (k.wait.NoWait? || k.wait.CatchingUp?)
  {
  }

  lemma BroadcastServes(s: State, e: Event, c: ConnId)
    requires Inv(s) && Enabled(s, e) && c in s.conns && ConnOk(Apply(s, e).conns[c])
    requires e.StartBroadcast? || e.BroadcastGathered? || e.SendSnapshot? || e.EndBroadcast?
    ensures ConnInv(Apply(s, e), c)
  {
    hide Highest, ConnOk;
    assert ConnInv(s, c);
    match e
    case StartBroadcast(targets) =>
      assert c in targets <==> IsTarget(s.conns[c]);
      if s.conns[c].stage.Ready? {
        ReadyOk(s.conns[c]);
      }
    case BroadcastGathered(_) =>
    case SendSnapshot(fits) =>
      var b := s.running.value;
      SendBounded(s.conns[c], Snapshot(b.revision), fits, s.revision);
      assert c in b.targets ==> c == b.targets[0] || c in b.targets[1..];
    case EndBroadcast =>
  }

  lemma ServedStep(s: State, e: Event, c: ConnId)
    requires Inv(s) && Enabled(s, e) && c in Apply(s, e).conns && ConnOk(Apply(s, e).conns[c])
    ensures ConnInv(Apply(s, e), c)
  {
    hide ConnOk, Served, Bounded, Inv, Send, Fail, OnHello, OnGathered, OnHelloSent, OnCaughtUp;
    var s' := Apply(s, e);
    if e.StartBroadcast? || e.BroadcastGathered? || e.SendSnapshot? || e.EndBroadcast? {
      BroadcastServes(s, e, c);
    } else if c !in s.conns {
      AcceptedServed(s, e, c);
    } else {
      ConnOf(s, c);
      if s'.conns[c] == s.conns[c] {
        OthersServed(s, s', c);
      } else {
        ChangedServed(s, e, c);
      }
    }
  }

  lemma ConnOf(s: State, c: ConnId)
    requires Inv(s) && c in s.conns
    ensures ConnInv(s, c)
  {
  }

  lemma AcceptedServed(s: State, e: Event, c: ConnId)
    requires Inv(s) && Enabled(s, e) && c !in s.conns && c in Apply(s, e).conns
    ensures ConnInv(Apply(s, e), c)
  {
    AcceptedOk();
  }

  lemma ChangedServed(s: State, e: Event, c: ConnId)
    requires c in s.conns && ConnInv(s, c) && Enabled(s, e) && c in Apply(s, e).conns
             && Apply(s, e).conns[c] != s.conns[c]
    requires ConnOk(Apply(s, e).conns[c])
    requires !e.StartBroadcast? && !e.BroadcastGathered? && !e.SendSnapshot? && !e.EndBroadcast?
    ensures ConnInv(Apply(s, e), c)
  {
    hide ConnOk, Highest, OnHello, OnGathered, OnHelloSent, OnCaughtUp, ShapeOk, Behind;
    if Behind(s.conns[c], s.revision) {
      StaysBehind(s, e, c);
    }
    if e.ClientHello? || e.Gathered? || e.HelloSent? || e.CaughtUp? {
      HandshakeServes(s, e, c);
    } else if e.ProtocolFailure? {
      FailBounded(s.conns[c], e.kept, s.revision);
    } else if e.SendOther? {
      HighestAppend(s.conns[c].outbox, Other);
    }
  }

  lemma RunningStep(s: State, e: Event)
    requires Inv(s) && Enabled(s, e)
    ensures RunningOk(Apply(s, e))
  {
    hide Highest, ShapeOk, Bounded, Served;
    var s' := Apply(s, e);
    forall c | c in s.conns && s.conns[c].handshakeComplete ensures c in s'.conns && s'.conns[c].handshakeComplete {
      StaysComplete(s, e, c);
    }
    if e.StartBroadcast? {
      forall c | c in e.targets ensures s.conns[c].handshakeComplete {
        assert ConnInv(s, c);
      }
    }
  }

  lemma StaysComplete(s: State, e: Event, c: ConnId)
    requires Enabled(s, e) && c in s.conns && s.conns[c].handshakeComplete
    ensures c in Apply(s, e).conns && Apply(s, e).conns[c].handshakeComplete
  {
  }

  lemma StepKeepsInv(s: State, e: Event)
    requires Inv(s) && Enabled(s, e)
    ensures Inv(Apply(s, e))
  {
    hide ConnInv, Apply, Enabled;
    RunningStep(s, e);
    forall c | c in Apply(s, e).conns ensures ConnInv(Apply(s, e), c) {
      TargetsComplete(s, e);
      ConnsOk(s, c);
      StepKeepsConn(s, e, c);
      ServedStep(s, e, c);
    }
  }

  lemma TargetsComplete(s: State, e: Event)
    requires Inv(s) && Enabled(s, e)
    ensures e.SendSnapshot? ==> s.conns[s.running.value.targets[0]].handshakeComplete
  {
  }

  lemma ConnsOk(s: State, c: ConnId)
    requires Inv(s)
    ensures c in s.conns ==> ConnOk(s.conns[c])
  {
    if c in s.conns {
      assert ConnInv(s, c);
    }
  }

  lemma {:induction false} ExecutionKeepsInv(states: seq<State>, events: seq<Event>, n: nat)
    requires Execution(states, events) && n <= |events|
    ensures Inv(states[n])
  {
    hide Apply, Enabled;
    if n > 0 {
      ExecutionKeepsInv(states, events, n - 1);
      StepKeepsInv(states[n - 1], events[n - 1]);
    }
  }
}
