/** The loop over the ports policy: every target is probed by binding the one
    module-level socket to 127.0.0.1, which is closed again at the end of each pass. */
module PortAudit {
  import opened Policy

  /** One entry of the ports policy: a port number and its `open` token. */
  datatype PortTarget = PortTarget(port: int, open: string)

  /** What a bind attempt did: it succeeded, it failed with EADDRINUSE, or it raised
      any other socket error. */
  datatype BindOutcome = BindOk | AddrInUse | BindFailed

  /** The order in which one pass may log the port alerts. */
  function Rank(a: Alert): nat
  {
    match a
    case PortOpen => 0
    case PortUnknownError => 1
    case PortClosed => 2
    case _ => 3
  }

  /** The alerts one pass of the loop logs for target `t` when the bind did `o`: at most
      three, and none exactly when the bind succeeded and the port need not be open. */
  function PortVerdict(t: PortTarget, o: BindOutcome): (r: seq<Alert>)
    ensures |r| <= 3
    ensures r == [] <==> o == BindOk && t.open != "yes"
  {
    var failed :=
      match o
      case BindOk => []
      case AddrInUse => (if t.open == "no" then [PortOpen] else []) + [PortUnknownError]
      case BindFailed => [PortUnknownError];
    failed + (if t.open == "yes" then [PortClosed] else [])
  }

  /** Which alerts one pass logs, and that it logs them in a fixed order, each at most once. */
  lemma PortVerdictShape(t: PortTarget, o: BindOutcome)
    ensures PortOpen in PortVerdict(t, o) <==> o == AddrInUse && t.open == "no"
    ensures PortUnknownError in PortVerdict(t, o) <==> o != BindOk
    ensures PortClosed in PortVerdict(t, o) <==> t.open == "yes"
    ensures forall a :: a in PortVerdict(t, o) ==> Rank(a) < 3
    ensures forall i, j :: 0 <= i < j < |PortVerdict(t, o)| ==> Rank(PortVerdict(t, o)[i]) < Rank(PortVerdict(t, o)[j])
  {
  }

  /** A free port that must be closed logs nothing; one in use logs "open" and then
      "unknown error". */
  lemma ClosedPortExpectations(t: PortTarget)
    requires t.open == "no"
    ensures PortVerdict(t, BindOk) == []
    ensures PortVerdict(t, AddrInUse) == [PortOpen, PortUnknownError]
    ensures PortVerdict(t, BindFailed) == [PortUnknownError]
  {
  }

  /** A port that must be open logs "closed" whatever the bind did. */
  lemma OpenPortExpectations(t: PortTarget, o: BindOutcome)
    requires t.open == "yes"
    ensures PortVerdict(t, o)[|PortVerdict(t, o)| - 1] == PortClosed
    ensures PortOpen !in PortVerdict(t, o)
  {
  }

  /** The alerts of the whole loop, one pass per target and bind outcome: at most three
      per target. */
  function PortVerdicts(targets: seq<PortTarget>, outcomes: seq<BindOutcome>): (r: seq<Alert>)
    requires |outcomes| == |targets|
    ensures |r| <= 3 * |targets|
  {
    if targets == [] then []
    else PortVerdicts(targets[..|targets| - 1], outcomes[..|outcomes| - 1])
         + PortVerdict(targets[|targets| - 1], outcomes[|outcomes| - 1])
  }

  /** Whether one pass logs alert `a`, stated per alert kind. */
  predicate Raises(t: PortTarget, o: BindOutcome, a: Alert)
  {
    match a
    case PortOpen => o == AddrInUse && t.open == "no"
    case PortUnknownError => o != BindOk
    case PortClosed => t.open == "yes"
    case _ => false
  }

  /** How many passes of the loop log alert `a`. */
  function Passes(targets: seq<PortTarget>, outcomes: seq<BindOutcome>, a: Alert): nat
    requires |outcomes| == |targets|
  {
    if targets == [] then 0
    else Passes(targets[..|targets| - 1], outcomes[..|outcomes| - 1], a)
         + (if Raises(targets[|targets| - 1], outcomes[|outcomes| - 1], a) then 1 else 0)
  }

  /** The count of `a` in a pass made of an optional "open", an optional "unknown error"
      and an optional "closed", in that order. */
  lemma CountOfParts(a: Alert, inUse: bool, unknown: bool, closed: bool)
    ensures Count(a, (if inUse then [PortOpen] else []) + (if unknown then [PortUnknownError] else [])
                     + (if closed then [PortClosed] else []))
         == if (a == PortOpen && inUse) || (a == PortUnknownError && unknown) || (a == PortClosed && closed) then 1 else 0
  {
    var p := if inUse then [PortOpen] else [];
    var u := if unknown then [PortUnknownError] else [];
    var c := if closed then [PortClosed] else [];
    CountAppend(a, p + u, c);
    CountAppend(a, p, u);
    CountSingle(a, PortOpen);
    CountSingle(a, PortUnknownError);
    CountSingle(a, PortClosed);
  }

  /** One pass logs each alert at most once, exactly when it raises it. */
  lemma CountOfPass(t: PortTarget, o: BindOutcome, a: Alert)
    ensures Count(a, PortVerdict(t, o)) == if Raises(t, o, a) then 1 else 0
  {
    var inUse := o == AddrInUse && t.open == "no";
    var unknown := o != BindOk;
    var closed := t.open == "yes";
    assert PortVerdict(t, o) == (if inUse then [PortOpen] else []) + (if unknown then [PortUnknownError] else [])
                                + (if closed then [PortClosed] else []) by {
      match o
      case BindOk =>
      case AddrInUse =>
      case BindFailed =>
    }
    CountOfParts(a, inUse, unknown, closed);
  }

  /** Across the loop: one "open" per port in use that must be closed, one "unknown error"
      per failed bind of any kind, one "closed" per port that must be open, nothing else. */
  lemma {:induction false} PortAlertCounts(targets: seq<PortTarget>, outcomes: seq<BindOutcome>, a: Alert)
    requires |outcomes| == |targets|
    ensures Count(a, PortVerdicts(targets, outcomes)) == Passes(targets, outcomes, a)
    decreases |targets|
  {
    if targets != [] {
      var n := |targets| - 1;
      PortAlertCounts(targets[..n], outcomes[..n], a);
      CountAppend(a, PortVerdicts(targets[..n], outcomes[..n]), PortVerdict(targets[n], outcomes[n]));
      CountOfPass(targets[n], outcomes[n], a);
    }
  }

  // ---------------------------------------------------------------------------
  // The shared probe socket

  datatype SockState = Unbound | BoundTo(port: int) | Closed

  /** A call made on the socket, with the outcome the system gave a bind. */
  datatype SockCall = BindCall(port: int, outcome: BindOutcome) | CloseCall

  /** `testsock`: created once, before any policy is read, and shared by every probe. */
  class ProbeSocket {
    var state: SockState
    var calls: seq<SockCall>

    constructor ()
      ensures state == Unbound && calls == []
    {
      state, calls := Unbound, [];
    }

    /** `bind(("127.0.0.1", port))`; what the system answers is the input `outcome`. */
    method Bind(port: int, outcome: BindOutcome)
      modifies this
      ensures calls == old(calls) + [BindCall(port, outcome)]
      ensures state == if outcome == BindOk then BoundTo(port) else old(state)
    {
      calls := calls + [BindCall(port, outcome)];
      if outcome == BindOk {
        state := BoundTo(port);
      }
    }

    method Close()
      modifies this
      ensures calls == old(calls) + [CloseCall]
      ensures state == Closed
    {
      calls := calls + [CloseCall];
      state := Closed;
    }
  }

  /** The calls the loop makes on the socket: a bind and a close per target. */
  function ProbeCalls(targets: seq<PortTarget>, outcomes: seq<BindOutcome>): (r: seq<SockCall>)
    requires |outcomes| == |targets|
    ensures |r| == 2 * |targets|
    ensures targets != [] ==> r[|r| - 1] == CloseCall
  {
    if targets == [] then []
    else ProbeCalls(targets[..|targets| - 1], outcomes[..|outcomes| - 1])
         + [BindCall(targets[|targets| - 1].port, outcomes[|outcomes| - 1]), CloseCall]
  }

  /** Target `k` is probed by call `2k`, and the socket is closed by the very next call;
      so every target after the first is probed on a socket the previous pass closed. */
  lemma {:induction false} ProbeCallsShape(targets: seq<PortTarget>, outcomes: seq<BindOutcome>)
    requires |outcomes| == |targets|
    ensures |ProbeCalls(targets, outcomes)| == 2 * |targets|
    ensures forall k :: 0 <= k < |targets| ==>
              ProbeCalls(targets, outcomes)[2 * k] == BindCall(targets[k].port, outcomes[k])
              && ProbeCalls(targets, outcomes)[2 * k + 1] == CloseCall
    decreases |targets|
  {
    if targets != [] {
      var n := |targets| - 1;
      ProbeCallsShape(targets[..n], outcomes[..n]);
      forall k | 0 <= k < n
        ensures targets[..n][k] == targets[k] && outcomes[..n][k] == outcomes[k]
      {
      }
    }
  }

  /** One pass of the loop: bind, log what the outcome and the `open` token call for, close. */
  method Probe(sock: ProbeSocket, t: PortTarget, o: BindOutcome) returns (pass: seq<Alert>)
    modifies sock
    ensures pass == PortVerdict(t, o)
    ensures sock.calls == old(sock.calls) + [BindCall(t.port, o), CloseCall]
    ensures sock.state == Closed
  {
    pass := [];
    sock.Bind(t.port, o);
    if o != BindOk {
      if o == AddrInUse {
        if t.open == "no" {
          pass := pass + [PortOpen];
        }
      }
      pass := pass + [PortUnknownError];
    }
    if t.open == "yes" {
      pass := pass + [PortClosed];
    }
    sock.Close();
  }

  /** The loop over the ports policy with the shared socket. */
  method AuditPorts(sock: ProbeSocket, targets: seq<PortTarget>, outcomes: seq<BindOutcome>) returns (log: seq<Alert>)
    requires |outcomes| == |targets|
    modifies sock
    ensures log == PortVerdicts(targets, outcomes)
    ensures sock.calls == old(sock.calls) + ProbeCalls(targets, outcomes)
    ensures sock.state == if targets == [] then old(sock.state) else Closed
  {
    log := [];
    ghost var calls0, state0 := sock.calls, sock.state;
    for k := 0 to |targets|
      invariant log == PortVerdicts(targets[..k], outcomes[..k])
      invariant sock.calls == calls0 + ProbeCalls(targets[..k], outcomes[..k])
      invariant sock.state == if k == 0 then state0 else Closed
    {
      assert targets[..k + 1][..k] == targets[..k];
      assert outcomes[..k + 1][..k] == outcomes[..k];
      assert PortVerdicts(targets[..k + 1], outcomes[..k + 1])
          == PortVerdicts(targets[..k], outcomes[..k]) + PortVerdict(targets[k], outcomes[k]);
      assert ProbeCalls(targets[..k + 1], outcomes[..k + 1])
          == ProbeCalls(targets[..k], outcomes[..k]) + [BindCall(targets[k].port, outcomes[k]), CloseCall];
      var pass := Probe(sock, targets[k], outcomes[k]);
      log := log + pass;
    }
    assert targets[..|targets|] == targets && outcomes[..|outcomes|] == outcomes;
  }
}
