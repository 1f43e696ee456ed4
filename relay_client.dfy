/**
 * The circuit-relay (v2) client seen as a transport: dialing through a relay
 * with the resource-scope discipline, the address predicates and constants of
 * the transport interface, and the setup that registers the client with the
 * host's network.
 *
 * The raw relay dial, the upgrader and the network's own bookkeeping are
 * collaborators whose answers are inputs (`DialOutcomes`, `SetupOutcomes`).
 */
module RelayClient {
  import opened Wrappers
  import opened Multiaddr
  import opened Network

  /** The address the client listens on: a lone `/p2p-circuit` component. */
  const CircuitAddr: Multiaddr := [Component(P_CIRCUIT, "")]

  /** `CanDial`: the address has a circuit component. */
  function CanDial(addr: Multiaddr): (r: bool)
    ensures r <==> Carries(addr, P_CIRCUIT)
  {
    ValueForProtocol(addr, P_CIRCUIT).Some?
  }

  /** The listener `Listen` builds: the client's own listener, gated, then upgraded. */
  datatype RelayListener = CircuitListener | GatedListener(inner: RelayListener) | UpgradedListener(inner: RelayListener)

  datatype ListenError = ProtocolNotFound(code: nat)

  /**
   * `Listen`: refuses an address without a circuit component with the error
   * of `ValueForProtocol`, and otherwise returns the upgraded, gated client
   * listener.
   */
  function Listen(addr: Multiaddr): (r: Result<RelayListener, ListenError>)
    ensures r.Err? <==> !Carries(addr, P_CIRCUIT)
    ensures r.Err? ==> r.error == ProtocolNotFound(P_CIRCUIT)
    ensures r.Ok? ==> r.value == UpgradedListener(GatedListener(CircuitListener))
  {
    if ValueForProtocol(addr, P_CIRCUIT).None? then Err(ProtocolNotFound(P_CIRCUIT))
    else Ok(UpgradedListener(GatedListener(CircuitListener)))
  }

  /** `Protocols`: the transport handles exactly the circuit protocol. */
  function Protocols(): (r: seq<nat>)
    ensures |r| == 1 && r[0] == P_CIRCUIT
  {
    [P_CIRCUIT]
  }

  /** `Proxy`: the relay transport always proxies through another peer. */
  function Proxy(): (r: bool)
    ensures r
  {
    true
  }

  /** `SkipResolve`: resolution is always left to the inner transport, whatever the address. */
  function SkipResolve(addr: Multiaddr): (r: bool)
    ensures r
  {
    true
  }

  /** The transport dials exactly the addresses it listens on, and those carry one of its protocols. */
  lemma DialableIffListenable(addr: Multiaddr)
    ensures CanDial(addr) <==> Listen(addr).Ok?
    ensures CanDial(addr) <==> exists i :: 0 <= i < |addr| && addr[i].code in Protocols()
  {
    if CanDial(addr) {
      var i :| 0 <= i < |addr| && addr[i].code == P_CIRCUIT;
      assert addr[i].code in Protocols();
    }
  }

  /** The address the setup listens on passes `Listen`'s guard. */
  lemma CircuitAddrListenable()
    ensures CanDial(CircuitAddr) && Listen(CircuitAddr).Ok?
  {
    assert CircuitAddr[0].code == P_CIRCUIT;
  }

  /** A connection through a relay to peer `peer`, as returned by the raw relay dial. */
  datatype RelayConn = RelayConn(addr: Multiaddr, peer: PeerId)

  /** The upgrade result wrapped as the client's capable connection. */
  datatype CapableConn = CapableConn(conn: RelayConn, direction: Direction, peer: PeerId, scope: Scope)

  datatype DialError = ScopeRefused | PeerRefused | DialFailed | UpgradeFailed

  /**
   * What the collaborators answer during one dial: the resource manager on
   * opening the scope and on binding the peer, the raw relay dial, and the
   * upgrader.
   */
  datatype DialOutcomes = DialOutcomes(admitConn: bool, admitPeer: bool, dialOk: bool, upgradeOk: bool)

  /** A collaborator call made while dialing, in the order it is made. */
  datatype Step =
    | OpenStep(addr: Multiaddr)
    | SetPeerStep(peer: PeerId)
    | DialStep(addr: Multiaddr, peer: PeerId)
    | TagHopStep
    | UpgradeStep(peer: PeerId)
    | DoneStep

  /** The calls `dialAndUpgrade` makes: it stops at the first step that fails. */
  function UpgradeSteps(a: Multiaddr, p: PeerId, o: DialOutcomes): seq<Step>
  {
    if !o.admitPeer then [SetPeerStep(p)]
    else if !o.dialOk then [SetPeerStep(p), DialStep(a, p)]
    else [SetPeerStep(p), DialStep(a, p), TagHopStep, UpgradeStep(p)]
  }

  /** Every step of `dialAndUpgrade` succeeds. */
  predicate UpgradeSucceeds(o: DialOutcomes)
  {
    o.admitPeer && o.dialOk && o.upgradeOk
  }

  /**
   * The calls `Dial` makes: open the scope; if that succeeds, the calls of
   * `dialAndUpgrade`, then `Done` if any of them failed.
   */
  function DialSteps(a: Multiaddr, p: PeerId, o: DialOutcomes): seq<Step>
  {
    [OpenStep(a)] +
    if !o.admitConn then []
    else UpgradeSteps(a, p, o) + if UpgradeSucceeds(o) then [] else [DoneStep]
  }

  /** How many `Done` calls a sequence of calls holds. */
  function DoneCount(steps: seq<Step>): nat
  {
    multiset(steps)[DoneStep]
  }

  /**
   * Release discipline of `Dial`: `Done` is called exactly once when the
   * scope was opened and a later step failed, and never otherwise; when it
   * is called it is the last call.
   */
  lemma DialReleasesOnce(a: Multiaddr, p: PeerId, o: DialOutcomes)
    ensures DoneCount(DialSteps(a, p, o)) == if o.admitConn && !UpgradeSucceeds(o) then 1 else 0
    ensures forall i :: 0 <= i < |DialSteps(a, p, o)| - 1 ==> DialSteps(a, p, o)[i] != DoneStep
  {
  }

  /** A refused scope ends `Dial` at once: nothing else is called, in particular no `Done`. */
  lemma RefusedScopeCallsNothing(a: Multiaddr, p: PeerId, o: DialOutcomes)
    requires !o.admitConn
    ensures DialSteps(a, p, o) == [OpenStep(a)]
  {
  }

  /**
   * Step order of `dialAndUpgrade`: `SetPeer` first; the relay dial only if
   * `SetPeer` succeeded; `tagHop` and then `Upgrade` only if the dial
   * succeeded; nothing after a failed step.
   */
  lemma UpgradeStepOrder(a: Multiaddr, p: PeerId, o: DialOutcomes)
    ensures UpgradeSteps(a, p, o)[0] == SetPeerStep(p)
    ensures DialStep(a, p) in UpgradeSteps(a, p, o) <==> o.admitPeer
    ensures TagHopStep in UpgradeSteps(a, p, o) <==> o.admitPeer && o.dialOk
    ensures UpgradeStep(p) in UpgradeSteps(a, p, o) <==> o.admitPeer && o.dialOk
    ensures o.admitPeer ==> UpgradeSteps(a, p, o)[1] == DialStep(a, p)
    ensures o.admitPeer && o.dialOk ==>
              UpgradeSteps(a, p, o) == [SetPeerStep(p), DialStep(a, p), TagHopStep, UpgradeStep(p)]
  {
  }

  /** The client transport: the host's resource manager and the calls it has made. */
  class Client {
    const rcmgr: ResourceManager
    /** Every collaborator call made by `Dial`, in order. */
    var steps: seq<Step>
    /** Whether `Start` has run. */
    var started: bool

    constructor (rcmgr: ResourceManager)
      ensures this.rcmgr == rcmgr && steps == [] && !started
    {
      this.rcmgr := rcmgr;
      steps, started := [], false;
    }

    /** `Start`: launches the client's background work, which is not part of this model. */
    method Start()
      modifies this`started
      ensures started
    {
      started := true;
    }

    /**
     * `dialAndUpgrade`: binds the scope to `p`, dials through the relay,
     * tags the hop and upgrades, stopping at the first failure. It never
     * releases the scope.
     */
    method DialAndUpgrade(a: Multiaddr, p: PeerId, scope: Scope, o: DialOutcomes)
      returns (r: Result<CapableConn, DialError>)
      modifies this`steps, scope`peerLog
      ensures steps == old(steps) + UpgradeSteps(a, p, o)
      ensures scope.peerLog == old(scope.peerLog) + [p]
      ensures r.Ok? <==> UpgradeSucceeds(o)
      ensures !o.admitPeer ==> r == Err(PeerRefused)
      ensures o.admitPeer && !o.dialOk ==> r == Err(DialFailed)
      ensures o.admitPeer && o.dialOk && !o.upgradeOk ==> r == Err(UpgradeFailed)
      ensures r.Ok? ==> r.value == CapableConn(RelayConn(a, p), Outbound, p, scope)
    {
      steps := steps + [SetPeerStep(p)];
      var ok := scope.SetPeer(p, o.admitPeer);
      if !ok {
        return Err(PeerRefused);
      }
      steps := steps + [DialStep(a, p)];
      if !o.dialOk {
        return Err(DialFailed);
      }
      var conn := RelayConn(a, p);
      steps := steps + [TagHopStep];
      steps := steps + [UpgradeStep(p)];
      if !o.upgradeOk {
        return Err(UpgradeFailed);
      }
      r := Ok(CapableConn(conn, Outbound, p, scope));
    }

    /**
     * `Dial`: opens an outbound scope without a file descriptor for `a`, then
     * dials and upgrades; the scope is released exactly once if that fails, and is
     * handed to the connection if it succeeds.
     */
    method Dial(a: Multiaddr, p: PeerId, o: DialOutcomes) returns (r: Result<CapableConn, DialError>)
      modifies this`steps, rcmgr`scopes
      ensures steps == old(steps) + DialSteps(a, p, o)
      ensures r.Ok? <==> o.admitConn && UpgradeSucceeds(o)
      ensures !o.admitConn ==> r == Err(ScopeRefused) && rcmgr.scopes == old(rcmgr.scopes)
      ensures o.admitConn && !o.admitPeer ==> r == Err(PeerRefused)
      ensures o.admitConn && o.admitPeer && !o.dialOk ==> r == Err(DialFailed)
      ensures o.admitConn && o.admitPeer && o.dialOk && !o.upgradeOk ==> r == Err(UpgradeFailed)
      ensures o.admitConn ==>
                |rcmgr.scopes| == |old(rcmgr.scopes)| + 1 &&
                rcmgr.scopes[..|old(rcmgr.scopes)|] == old(rcmgr.scopes) &&
                var s := rcmgr.scopes[|old(rcmgr.scopes)|];
                fresh(s) && s.direction == Outbound && !s.usefd && s.remote == a &&
                s.peerLog == [p] && s.doneCount == (if r.Ok? then 0 else 1) &&
                (r.Ok? ==> r.value == CapableConn(RelayConn(a, p), Outbound, p, s))
    {
      steps := steps + [OpenStep(a)];
      var connScope := rcmgr.OpenConnection(Outbound, false, a, o.admitConn);
      if connScope == null {
        return Err(ScopeRefused);
      }
      r := DialAndUpgrade(a, p, connScope, o);
      if r.Err? {
        steps := steps + [DoneStep];
        connScope.Done();
      }
    }
  }

  /** The host's network, when it is a transport network: the transports and listen addresses it holds. */
  class TransportNetwork {
    var transports: seq<Client>
    var listenAddrs: seq<Multiaddr>

    constructor ()
      ensures transports == [] && listenAddrs == []
    {
      transports, listenAddrs := [], [];
    }

    /** `AddTransport`; `ok` is the network's verdict. */
    method AddTransport(c: Client, ok: bool) returns (added: bool)
      modifies this`transports
      ensures added == ok
      ensures ok ==> transports == old(transports) + [c]
      ensures !ok ==> transports == old(transports)
    {
      if ok {
        transports := transports + [c];
      }
      added := ok;
    }

    /** `Listen`; `ok` is the network's verdict. */
    method Listen(addr: Multiaddr, ok: bool) returns (listening: bool)
      modifies this`listenAddrs
      ensures listening == ok
      ensures ok ==> listenAddrs == old(listenAddrs) + [addr]
      ensures !ok ==> listenAddrs == old(listenAddrs)
    {
      if ok {
        listenAddrs := listenAddrs + [addr];
      }
      listening := ok;
    }
  }

  /** What the collaborators answer during setup: construction, adding the transport, listening. */
  datatype SetupOutcomes = SetupOutcomes(newOk: bool, addOk: bool, listenOk: bool)

  datatype SetupError = NotTransportNetwork | ConstructFailed | AddTransportFailed | ListenFailed

  /**
   * `AddTransport`: `net` is the host's network when it is a transport
   * network and null otherwise. The steps run in order (check, construct,
   * add, listen on the circuit address, start) and the first failure ends
   * the setup with its error, so the client is started only when every
   * earlier step succeeded.
   */
  method AddTransport(net: TransportNetwork?, rcmgr: ResourceManager, o: SetupOutcomes)
    returns (r: Outcome<SetupError>, c: Client?)
    modifies net
    ensures r.Pass? <==> net != null && o.newOk && o.addOk && o.listenOk
    ensures net == null ==> r == Fail(NotTransportNetwork) && c == null
    ensures net != null && !o.newOk ==> r == Fail(ConstructFailed) && c == null && unchanged(net)
    ensures net != null && o.newOk ==> c != null && fresh(c) && c.rcmgr == rcmgr && c.steps == []
    ensures net != null && o.newOk && !o.addOk ==> r == Fail(AddTransportFailed) && unchanged(net)
    ensures net != null && o.newOk && o.addOk ==> net.transports == old(net.transports) + [c]
    ensures net != null && o.newOk && o.addOk && !o.listenOk ==>
              r == Fail(ListenFailed) && net.listenAddrs == old(net.listenAddrs)
    ensures net != null && o.newOk && o.addOk && o.listenOk ==> net.listenAddrs == old(net.listenAddrs) + [CircuitAddr]
    ensures c != null ==> (c.started <==> r.Pass?)
  {
    if net == null {
      return Fail(NotTransportNetwork), null;
    }
    if !o.newOk {
      return Fail(ConstructFailed), null;
    }
    c := new Client(rcmgr);
    var added := net.AddTransport(c, o.addOk);
    if !added {
      return Fail(AddTransportFailed), c;
    }
    var listening := net.Listen(CircuitAddr, o.listenOk);
    if !listening {
      return Fail(ListenFailed), c;
    }
    c.Start();
    r := Pass;
  }
}
