/**
 * What the QUIC listener works on: raw QUIC connections, the wrapped
 * connections it produces, the hole-punch registry it shares with the dialing
 * side, and a pure account of one turn of its accept loop.
 *
 * Raw networking, TLS and the resource manager's policy are outside the
 * model: what they would answer about a raw connection is fixed in the
 * constant fields of a `QuicSession`.
 */
module QuicConn {
  import opened Wrappers
  import opened Multiaddr
  import opened Network

  /** A QUIC version number (`quic.Version`). */
  type Version = nat

  const Version1: Version := 1

  /** A public key as bytes; decoding keys is not part of this model. */
  type PubKey = seq<int>

  /**
   * A raw QUIC connection handed out by the reuse listener. Besides its
   * remote address string and negotiated version it carries what the
   * collaborators answer about it: the conversion of its remote address to a
   * multiaddress, the scope attached to its context by the reuse layer (if
   * any), the resource manager's verdicts on opening a scope and on binding
   * the peer, and the public key read from its verified certificate chain.
   */
  class QuicSession {
    const remoteAddr: string
    const version: Version
    const remoteMultiaddr: Option<Multiaddr>
    const attachedScope: Scope?
    const admitConn: bool
    const certKey: Option<PubKey>
    const admitPeer: bool
    var closeCodes: seq<CloseCode>

    constructor (remoteAddr: string, version: Version, remoteMultiaddr: Option<Multiaddr>,
                 attachedScope: Scope?, admitConn: bool, certKey: Option<PubKey>, admitPeer: bool)
      ensures this.remoteAddr == remoteAddr && this.version == version
      ensures this.remoteMultiaddr == remoteMultiaddr && this.attachedScope == attachedScope
      ensures this.admitConn == admitConn && this.certKey == certKey && this.admitPeer == admitPeer
      ensures closeCodes == []
    {
      this.remoteAddr, this.version, this.remoteMultiaddr := remoteAddr, version, remoteMultiaddr;
      this.attachedScope, this.admitConn := attachedScope, admitConn;
      this.certKey, this.admitPeer := certKey, admitPeer;
      closeCodes := [];
    }

    /** `CloseWithError(code, "")`: the model records the code. */
    method CloseWithError(code: CloseCode)
      modifies this`closeCodes
      ensures closeCodes == old(closeCodes) + [code]
    {
      closeCodes := closeCodes + [code];
    }
  }

  /** The scope attached to a raw connection's context, as a frame. */
  function AttachedScope(s: QuicSession): set<Scope>
  {
    if s.attachedScope == null then {} else {s.attachedScope}
  }

  /** A wrapped connection (`*conn`): it owns its raw connection and its scope. */
  datatype Conn = Conn(session: QuicSession, scope: Scope, localPeer: PeerId,
                       localMultiaddr: Multiaddr, remoteMultiaddr: Multiaddr,
                       remotePeer: PeerId, remotePubKey: PubKey)

  /** What a connection says about its endpoints, without the objects it owns. */
  datatype ConnView = ConnView(localPeer: PeerId, localMultiaddr: Multiaddr,
                               remoteMultiaddr: Multiaddr, remotePeer: PeerId,
                               remotePubKey: PubKey)

  function View(c: Conn): ConnView
  {
    ConnView(c.localPeer, c.localMultiaddr, c.remoteMultiaddr, c.remotePeer, c.remotePubKey)
  }

  /** A rendezvous key: remote socket address string and remote peer. */
  datatype HolePunchKey = HolePunchKey(addr: string, peer: PeerId)

  function KeyOf(c: Conn): HolePunchKey
  {
    HolePunchKey(c.session.remoteAddr, c.remotePeer)
  }

  /**
   * A pending hole punch: whether an inbound connection was handed over,
   * and every connection sent on its channel, in order.
   */
  datatype HolePunch = HolePunch(fulfilled: bool, delivered: seq<Conn>)

  type Registry = map<HolePunchKey, HolePunch>

  /** A hole punch that the next matching inbound connection would take. */
  predicate Claimable(registry: Registry, k: HolePunchKey)
  {
    k in registry && !registry[k].fulfilled
  }

  /** The connection gater's two inbound hooks, as pure verdicts. */
  datatype Gater = Gater(interceptAccept: (Multiaddr, Multiaddr) -> bool,
                         interceptSecured: (Direction, PeerId, Multiaddr, Multiaddr) -> bool)

  /**
   * True when no gater is configured, or when both `InterceptAccept` and
   * `InterceptSecured` for an inbound connection let it pass.
   */
  predicate Allows(gater: Option<Gater>, v: ConnView)
  {
    gater.None? ||
    (gater.value.interceptAccept(v.localMultiaddr, v.remoteMultiaddr) &&
     gater.value.interceptSecured(Inbound, v.remotePeer, v.localMultiaddr, v.remoteMultiaddr))
  }

  /**
   * The fixed part of a listener that decides what becomes of a raw
   * connection: the local peer, the local-address table, the derivation of a
   * peer identity from a public key (`peer.IDFromPublicKey`, which can fail),
   * and the transport's gater.
   */
  datatype Config = Config(localPeer: PeerId, localMultiaddrs: map<Version, Multiaddr>,
                           peerIdOf: PubKey -> Option<PeerId>, gater: Option<Gater>)

  /** The peer identity derived from the certificate chain, if both steps succeed. */
  function RemotePeer(cfg: Config, s: QuicSession): Option<PeerId>
  {
    if s.certKey.None? then None else cfg.peerIdOf(s.certKey.value)
  }

  /**
   * What wrapping `s` yields: nothing when address conversion fails, when no
   * scope is attached and the resource manager refuses one, when the identity
   * cannot be derived, when the peer is refused, or when the negotiated
   * version has no local address.
   */
  function Wrapped(cfg: Config, s: QuicSession): Option<ConnView>
  {
    if s.remoteMultiaddr.None? then None
    else if s.attachedScope == null && !s.admitConn then None
    else if RemotePeer(cfg, s).None? || !s.admitPeer || s.version !in cfg.localMultiaddrs then None
    else Some(ConnView(cfg.localPeer, cfg.localMultiaddrs[s.version], s.remoteMultiaddr.value,
                       RemotePeer(cfg, s).value, s.certKey.value))
  }

  /** `s` wraps and the gater lets it pass: the only sessions that can surface or be handed over. */
  predicate Admitted(cfg: Config, s: QuicSession)
  {
    Wrapped(cfg, s).Some? && Allows(cfg.gater, Wrapped(cfg, s).value)
  }

  /** The rendezvous key of a session that wraps. */
  function KeyFor(cfg: Config, s: QuicSession): HolePunchKey
    requires Wrapped(cfg, s).Some?
  {
    HolePunchKey(s.remoteAddr, Wrapped(cfg, s).value.remotePeer)
  }

  /**
   * What one turn of the accept loop did with a raw connection: closed it
   * because wrapping failed, closed the wrapped connection because the gater
   * objected, handed it to a hole punch, or let it surface.
   */
  datatype Fate = Dropped | Refused(conn: Conn) | HandedOver(conn: Conn) | Surfaced(conn: Conn)

  /**
   * `f` is what a turn of the accept loop may do with `s` while the registry
   * is `registry`: the fate follows from wrapping, then the gater, then the
   * registry, in that order, and the connection is the wrapping of `s`,
   * holding the scope the session brought when it brought one.
   */
  ghost predicate Fits(cfg: Config, registry: Registry, s: QuicSession, f: Fate)
  {
    match Wrapped(cfg, s)
    case None => f == Dropped
    case Some(v) =>
      !f.Dropped? && f.conn.session == s && View(f.conn) == v &&
      (s.attachedScope != null ==> f.conn.scope == s.attachedScope) &&
      (if !Allows(cfg.gater, v) then f.Refused?
       else if Claimable(registry, KeyFor(cfg, s)) then f.HandedOver?
       else f.Surfaced?)
  }

  /** The registry after a turn with fate `f`: a handed-over connection fulfils its hole punch. */
  function Apply(registry: Registry, f: Fate): Registry
  {
    if f.HandedOver? && KeyOf(f.conn) in registry then
      registry[KeyOf(f.conn) := HolePunch(true, registry[KeyOf(f.conn)].delivered + [f.conn])]
    else registry
  }

  /** The registry after a sequence of turns. */
  function Replay(registry: Registry, fates: seq<Fate>): Registry
  {
    if fates == [] then registry
    else Apply(Replay(registry, fates[..|fates| - 1]), fates[|fates| - 1])
  }

  /**
   * `fates` is what successive turns of the accept loop may do with the raw
   * connections `q`, starting from `registry`.
   */
  ghost predicate ValidRun(cfg: Config, registry: Registry, q: seq<QuicSession>, fates: seq<Fate>)
  {
    |q| == |fates| &&
    (fates == [] ||
     (ValidRun(cfg, registry, q[..|q| - 1], fates[..|fates| - 1]) &&
      Fits(cfg, Replay(registry, fates[..|fates| - 1]), q[|q| - 1], fates[|fates| - 1])))
  }

  /** The connections `addConn` records during a run: every one that wrapped. */
  function AddedConns(fates: seq<Fate>): seq<Conn>
  {
    if fates == [] then []
    else
      var f := fates[|fates| - 1];
      AddedConns(fates[..|fates| - 1]) + (if f.Dropped? then [] else [f.conn])
  }

  /** A `closeWithError` call on a wrapped connection, with its code. */
  datatype ConnClose = ConnClose(conn: Conn, code: CloseCode)

  /** The `closeWithError` calls of a run: the gated connections, with `Gated`. */
  function GatedCloses(fates: seq<Fate>): seq<ConnClose>
  {
    if fates == [] then []
    else
      var f := fates[|fates| - 1];
      GatedCloses(fates[..|fates| - 1]) + (if f.Refused? then [ConnClose(f.conn, Gated)] else [])
  }

  /** How many times `x` occurs among `q`. */
  function Occurrences(x: QuicSession, q: seq<QuicSession>): nat
  {
    if q == [] then 0
    else Occurrences(x, q[..|q| - 1]) + (if q[|q| - 1] == x then 1 else 0)
  }

  function Repeat(code: CloseCode, n: nat): seq<CloseCode>
  {
    if n == 0 then [] else Repeat(code, n - 1) + [code]
  }

  /**
   * The close codes a run over `q` gives `x`: `ResourceLimitExceeded` each
   * time `x` is taken, if it fails to wrap; none otherwise.
   */
  function DropCloses(cfg: Config, x: QuicSession, q: seq<QuicSession>): seq<CloseCode>
  {
    if Wrapped(cfg, x).None? then Repeat(ResourceLimitExceeded, Occurrences(x, q)) else []
  }

  /**
   * The close codes the turns of a run give `x`: `ResourceLimitExceeded`
   * for each turn that took `x` and dropped it.
   */
  function TurnCloses(x: QuicSession, q: seq<QuicSession>, fates: seq<Fate>): seq<CloseCode>
    requires |q| == |fates|
  {
    if q == [] then []
    else
      var n := |q| - 1;
      TurnCloses(x, q[..n], fates[..n]) + (if q[n] == x && fates[n].Dropped? then [ResourceLimitExceeded] else [])
  }

  /**
   * Over a run, a session is closed with `ResourceLimitExceeded` once for
   * every time it is taken if it fails to wrap, and never otherwise.
   */
  lemma {:induction false} RunCloses(cfg: Config, registry: Registry, q: seq<QuicSession>,
                                     fates: seq<Fate>, x: QuicSession)
    requires ValidRun(cfg, registry, q, fates)
    ensures TurnCloses(x, q, fates) == DropCloses(cfg, x, q)
  {
    if q != [] {
      RunCloses(cfg, registry, q[..|q| - 1], fates[..|fates| - 1], x);
    }
  }

  /**
   * The resource manager opens a fresh scope for `s` when its address
   * converts, no scope is attached to it, and the manager admits it.
   */
  predicate OpensScope(s: QuicSession)
  {
    s.remoteMultiaddr.Some? && s.attachedScope == null && s.admitConn
  }

  /**
   * The peers a turn binds the scope of `s` to: the remote peer, once the
   * address converted and the identity was derived.
   */
  function Binding(cfg: Config, s: QuicSession): seq<PeerId>
  {
    if s.remoteMultiaddr.Some? && RemotePeer(cfg, s).Some? then [RemotePeer(cfg, s).value] else []
  }

  /**
   * The releases a turn with fate `f` makes on the scope of `s`, when `s`
   * has one: one when the scope was acquired and the session dropped.
   */
  function Releases(s: QuicSession, f: Fate): nat
  {
    if f.Dropped? && s.remoteMultiaddr.Some? then 1 else 0
  }

  /** The releases the turns of a run make on the attached scope `x`. */
  function AttachedReleases(x: Scope, q: seq<QuicSession>, fates: seq<Fate>): nat
    requires |q| == |fates|
  {
    if q == [] then 0
    else
      var n := |q| - 1;
      AttachedReleases(x, q[..n], fates[..n]) + (if q[n].attachedScope == x then Releases(q[n], fates[n]) else 0)
  }

  /** The peers the turns of a run bind the attached scope `x` to, in order. */
  function AttachedBindings(cfg: Config, x: Scope, q: seq<QuicSession>): seq<PeerId>
  {
    if q == [] then []
    else
      var n := |q| - 1;
      AttachedBindings(cfg, x, q[..n]) + (if q[n].attachedScope == x then Binding(cfg, q[n]) else [])
  }

  /**
   * How many times a session carrying the attached scope `x` is taken with a
   * converted address and fails to wrap: each is a failure after the scope
   * was acquired.
   */
  function FailedAcquisitions(cfg: Config, x: Scope, q: seq<QuicSession>): nat
  {
    if q == [] then 0
    else
      var n := |q| - 1;
      var s := q[n];
      FailedAcquisitions(cfg, x, q[..n]) +
        (if s.attachedScope == x && s.remoteMultiaddr.Some? && Wrapped(cfg, s).None? then 1 else 0)
  }

  /**
   * Over a run, an attached scope is released once for every turn that
   * acquired it and then failed to wrap, and at no other time.
   */
  lemma {:induction false} RunReleasesAttached(cfg: Config, registry: Registry, q: seq<QuicSession>,
                                               fates: seq<Fate>, x: Scope)
    requires ValidRun(cfg, registry, q, fates)
    ensures AttachedReleases(x, q, fates) == FailedAcquisitions(cfg, x, q)
  {
    if q != [] {
      RunReleasesAttached(cfg, registry, q[..|q| - 1], fates[..|fates| - 1], x);
    }
  }

  /** The turns of a run over `q` that open a fresh scope, in order. */
  function OpeningTurns(q: seq<QuicSession>): (r: seq<nat>)
    ensures forall j :: 0 <= j < |r| ==> r[j] < |q| && OpensScope(q[r[j]])
    ensures forall j, k :: 0 <= j < k < |r| ==> r[j] < r[k]
    ensures forall i :: 0 <= i < |q| && OpensScope(q[i]) ==> i in r
  {
    if q == [] then []
    else
      var n := |q| - 1;
      OpeningTurns(q[..n]) + (if OpensScope(q[n]) then [n] else [])
  }

  /**
   * Over a run, the scope opened by each opening turn is released exactly
   * once if that turn's session failed to wrap, and never if it wrapped.
   */
  lemma {:induction false} RunReleasesOpened(cfg: Config, registry: Registry, q: seq<QuicSession>,
                                             fates: seq<Fate>)
    requires ValidRun(cfg, registry, q, fates)
    ensures forall j :: 0 <= j < |OpeningTurns(q)| ==>
              Releases(q[OpeningTurns(q)[j]], fates[OpeningTurns(q)[j]]) ==
                (if Wrapped(cfg, q[OpeningTurns(q)[j]]).None? then 1 else 0)
  {
    RunAdmitsOnlyAdmitted(cfg, registry, q, fates);
  }

  /** A connection that may be handed to the hole punch under key `k`. */
  ghost predicate Deliverable(cfg: Config, c: Conn, k: HolePunchKey)
  {
    KeyOf(c) == k && Wrapped(cfg, c.session) == Some(View(c)) && Allows(cfg.gater, View(c))
  }

  /**
   * How one hole-punch record may change over a run: not at all, or an
   * unfulfilled record becomes fulfilled after exactly one delivery, of a
   * matching connection that wrapped and passed the gater.
   */
  ghost predicate Transition(cfg: Config, before: HolePunch, after: HolePunch, k: HolePunchKey)
  {
    after == before ||
    (!before.fulfilled && after.fulfilled &&
     |after.delivered| == |before.delivered| + 1 &&
     after.delivered[..|before.delivered|] == before.delivered &&
     Deliverable(cfg, after.delivered[|before.delivered|], k))
  }

  /** A run extended by one turn that fits is a run, and its accounts extend by that turn. */
  lemma {:induction false} RunStep(cfg: Config, registry: Registry, q: seq<QuicSession>, fates: seq<Fate>,
                                   s: QuicSession, f: Fate)
    requires ValidRun(cfg, registry, q, fates)
    requires Fits(cfg, Replay(registry, fates), s, f)
    ensures ValidRun(cfg, registry, q + [s], fates + [f])
    ensures Replay(registry, fates + [f]) == Apply(Replay(registry, fates), f)
    ensures AddedConns(fates + [f]) == AddedConns(fates) + (if f.Dropped? then [] else [f.conn])
    ensures GatedCloses(fates + [f]) == GatedCloses(fates) + (if f.Refused? then [ConnClose(f.conn, Gated)] else [])
    ensures forall x :: TurnCloses(x, q + [s], fates + [f]) ==
                          TurnCloses(x, q, fates) + (if s == x && f.Dropped? then [ResourceLimitExceeded] else [])
    ensures forall x :: AttachedReleases(x, q + [s], fates + [f]) ==
                          AttachedReleases(x, q, fates) + (if s.attachedScope == x then Releases(s, f) else 0)
    ensures forall x :: AttachedBindings(cfg, x, q + [s]) ==
                          AttachedBindings(cfg, x, q) + (if s.attachedScope == x then Binding(cfg, s) else [])
    ensures OpeningTurns(q + [s]) == OpeningTurns(q) + (if OpensScope(s) then [|q|] else [])
  {
    assert (q + [s])[..|q|] == q;
    assert (fates + [f])[..|fates|] == fates;
  }

  /** The accept loop never adds or removes hole punches. */
  lemma {:induction false} ReplayKeepsKeys(registry: Registry, fates: seq<Fate>)
    ensures Replay(registry, fates).Keys == registry.Keys
  {
    if fates != [] {
      ReplayKeepsKeys(registry, fates[..|fates| - 1]);
    }
  }

  /**
   * Over any run, each hole punch receives at most one connection: it is
   * left alone, or it was unfulfilled and now holds exactly one more
   * delivery, of an admitted connection for its own key.
   */
  lemma {:induction false} RunDeliversAtMostOnce(cfg: Config, registry: Registry,
                                                q: seq<QuicSession>, fates: seq<Fate>)
    requires ValidRun(cfg, registry, q, fates)
    ensures Replay(registry, fates).Keys == registry.Keys
    ensures forall k :: k in registry ==> Transition(cfg, registry[k], Replay(registry, fates)[k], k)
  {
    ReplayKeepsKeys(registry, fates);
    if fates != [] {
      var n := |fates| - 1;
      RunDeliversAtMostOnce(cfg, registry, q[..n], fates[..n]);
      var mid := Replay(registry, fates[..n]);
      var f := fates[n];
      if f.HandedOver? {
        var k := KeyOf(f.conn);
        assert k == KeyFor(cfg, q[n]);
        assert Claimable(mid, k);
        assert mid[k] == registry[k];
        var after := Replay(registry, fates)[k];
        assert after.delivered[..|registry[k].delivered|] == registry[k].delivered;
        assert Transition(cfg, registry[k], after, k);
      }
    }
  }

  /**
   * The fate of every turn of a run is decided by wrapping and gating: a
   * session surfaces or is handed over only if it wrapped and the gater
   * accepted it, and it is dropped or refused otherwise.
   */
  lemma {:induction false} RunAdmitsOnlyAdmitted(cfg: Config, registry: Registry,
                                                q: seq<QuicSession>, fates: seq<Fate>)
    requires ValidRun(cfg, registry, q, fates)
    ensures forall i :: 0 <= i < |fates| ==>
              (fates[i].Dropped? <==> Wrapped(cfg, q[i]).None?) &&
              (fates[i].Refused? <==> Wrapped(cfg, q[i]).Some? && !Admitted(cfg, q[i])) &&
              (fates[i].Surfaced? || fates[i].HandedOver? <==> Admitted(cfg, q[i]))
  {
    if fates != [] {
      var n := |fates| - 1;
      RunAdmitsOnlyAdmitted(cfg, registry, q[..n], fates[..n]);
      forall i | 0 <= i < n
        ensures q[i] == q[..n][i] && fates[i] == fates[..n][i]
      {
      }
    }
  }

  /** Once fulfilled, a hole punch stays fulfilled for the rest of a run. */
  lemma {:induction false} FulfilledStays(registry: Registry, fates: seq<Fate>, m: nat, k: HolePunchKey)
    requires m <= |fates|
    requires k in Replay(registry, fates[..m]) && Replay(registry, fates[..m])[k].fulfilled
    ensures k in Replay(registry, fates) && Replay(registry, fates)[k].fulfilled
    decreases |fates| - m
  {
    if m < |fates| {
      assert fates[..m + 1][..m] == fates[..m];
      FulfilledStays(registry, fates, m + 1, k);
    } else {
      assert fates[..m] == fates;
    }
  }

  /**
   * Rendezvous exclusivity: within a run, no two connections are handed to
   * the hole punch of the same key.
   */
  lemma {:induction false} HandOverExclusive(cfg: Config, registry: Registry, q: seq<QuicSession>,
                                            fates: seq<Fate>, i: nat, j: nat)
    requires ValidRun(cfg, registry, q, fates)
    requires i < j < |fates| && fates[i].HandedOver? && fates[j].HandedOver?
    ensures KeyOf(fates[i].conn) != KeyOf(fates[j].conn)
  {
    var n := |fates| - 1;
    if j < n {
      HandOverExclusive(cfg, registry, q[..n], fates[..n], i, j);
      assert fates[..n][i] == fates[i] && fates[..n][j] == fates[j];
    } else {
      var prefix := fates[..n];
      var prefixRun := fates[..i + 1];
      PrefixRun(cfg, registry, q, fates, i + 1);
      PrefixRun(cfg, registry, q, fates, i);
      assert prefixRun[..i] == fates[..i];
      var k := KeyOf(fates[i].conn);
      assert k == KeyFor(cfg, q[i]);
      assert Claimable(Replay(registry, fates[..i]), k);
      assert k in Replay(registry, prefix[..i + 1]) && Replay(registry, prefix[..i + 1])[k].fulfilled by {
        assert prefix[..i + 1] == prefixRun;
      }
      FulfilledStays(registry, prefix, i + 1, k);
      assert !Claimable(Replay(registry, prefix), k);
      assert KeyOf(fates[j].conn) == KeyFor(cfg, q[j]);
    }
  }

  /** A prefix of a run is a run, and its `i`-th turn fits the registry the prefix leaves. */
  lemma {:induction false} PrefixRun(cfg: Config, registry: Registry, q: seq<QuicSession>,
                                    fates: seq<Fate>, m: nat)
    requires ValidRun(cfg, registry, q, fates)
    requires m <= |fates|
    ensures ValidRun(cfg, registry, q[..m], fates[..m])
    ensures m < |fates| ==> Fits(cfg, Replay(registry, fates[..m]), q[m], fates[m])
    decreases |fates| - m
  {
    var n := |fates| - 1;
    if m == |fates| {
      assert q[..m] == q && fates[..m] == fates;
    } else {
      PrefixRun(cfg, registry, q[..n], fates[..n], m);
      if m < n {
        assert q[..n][..m] == q[..m] && fates[..n][..m] == fates[..m];
        assert q[..n][m] == q[m] && fates[..n][m] == fates[m];
      } else {
        assert q[..n] == q[..m] && fates[..n] == fates[..m];
      }
    }
  }

  /**
   * The duplicate-session scenario: with an unfulfilled hole punch for key
   * `k`, two admitted sessions for `k` arrive in turn. The first is handed to
   * the hole punch, which becomes fulfilled with that one delivery; the second
   * surfaces as an ordinary inbound connection.
   */
  lemma DuplicateSessionScenario(cfg: Config, registry: Registry, s1: QuicSession, s2: QuicSession,
                                 fates: seq<Fate>)
    requires Admitted(cfg, s1) && Admitted(cfg, s2)
    requires KeyFor(cfg, s1) == KeyFor(cfg, s2) && Claimable(registry, KeyFor(cfg, s1))
    requires ValidRun(cfg, registry, [s1, s2], fates)
    ensures fates[0].HandedOver? && fates[0].conn.session == s1
    ensures fates[1].Surfaced? && fates[1].conn.session == s2
    ensures KeyFor(cfg, s1) in Replay(registry, fates) &&
            Replay(registry, fates)[KeyFor(cfg, s1)] ==
              HolePunch(true, registry[KeyFor(cfg, s1)].delivered + [fates[0].conn])
  {
    assert [s1, s2][..1] == [s1] && fates[..1][..0] == [];
    var k := KeyFor(cfg, s1);
    assert KeyOf(fates[0].conn) == k;
  }

  /**
   * With a gater that rejects every session of a run, nothing surfaces,
   * nothing is handed over, and the registry is left as it was.
   */
  lemma {:induction false} RejectingGaterScenario(cfg: Config, registry: Registry,
                                                 q: seq<QuicSession>, fates: seq<Fate>)
    requires ValidRun(cfg, registry, q, fates)
    requires forall i :: 0 <= i < |q| ==> !Admitted(cfg, q[i])
    ensures forall i :: 0 <= i < |fates| ==> fates[i].Dropped? || fates[i].Refused?
    ensures Replay(registry, fates) == registry
  {
    if fates != [] {
      var n := |fates| - 1;
      RejectingGaterScenario(cfg, registry, q[..n], fates[..n]);
      forall i | 0 <= i < n
        ensures fates[i] == fates[..n][i]
      {
      }
    }
  }
}
