/**
 * The QUIC transport's listener: the table of local addresses built when the
 * listener is created, the accept loop that wraps raw QUIC connections into
 * libp2p connections, applies the connection gater and hands connections to
 * pending hole punches, and the wrapping itself with its resource-scope
 * discipline. The accept loop is proved against the pure account of its turns
 * in module QuicConn.
 */
module QuicListener {
  import opened Wrappers
  import opened Multiaddr
  import opened Network
  import opened QuicConn

  /** The part of the QUIC transport the listener shares with the dialing side. */
  class QuicTransport {
    const gater: Option<Gater>
    /** The connections recorded by `addConn`, in order. */
    var conns: seq<Conn>
    /** The `closeWithError` calls made on wrapped connections, in order. */
    var connCloses: seq<ConnClose>
    /** The hole-punch registry, guarded by `holePunchingMx` in the source. */
    var holePunching: Registry

    constructor (gater: Option<Gater>, holePunching: Registry)
      ensures this.gater == gater && this.holePunching == holePunching
      ensures conns == [] && connCloses == []
    {
      this.gater, this.holePunching := gater, holePunching;
      conns, connCloses := [], [];
    }

    /** `addConn`: its table is not part of this model; the call is recorded. */
    method AddConn(c: Conn)
      modifies this`conns
      ensures conns == old(conns) + [c]
    {
      conns := conns + [c];
    }

    /** `conn.closeWithError`: its body is not part of this model; the call is recorded. */
    method CloseConn(c: Conn, code: CloseCode)
      modifies this`connCloses
      ensures connCloses == old(connCloses) + [ConnClose(c, code)]
    {
      connCloses := connCloses + [ConnClose(c, code)];
    }

    /**
     * The critical section under `holePunchingMx`: a pending hole punch for
     * `key` that is not yet fulfilled receives `c` on its channel and becomes
     * fulfilled; the answer says whether that happened.
     */
    method DeliverHolePunch(key: HolePunchKey, c: Conn) returns (wasHolePunch: bool)
      modifies this`holePunching
      ensures wasHolePunch <==> Claimable(old(holePunching), key)
      ensures wasHolePunch ==>
                holePunching == old(holePunching)[key := HolePunch(true, old(holePunching)[key].delivered + [c])]
      ensures !wasHolePunch ==> holePunching == old(holePunching)
    {
      wasHolePunch := false;
      if key in holePunching {
        var holePunch := holePunching[key];
        if !holePunch.fulfilled {
          holePunch := holePunch.(delivered := holePunch.delivered + [c]);
          wasHolePunch := true;
          holePunch := holePunch.(fulfilled := true);
          holePunching := holePunching[key := holePunch];
        }
      }
    }
  }

  /**
   * The local-address table of a listener: only QUIC version 1 has an entry,
   * it has one exactly when some listen address carries a QUIC-v1 component,
   * and the entry is the last such address.
   */
  ghost predicate IsLocalTable(addrs: seq<Multiaddr>, table: map<Version, Multiaddr>)
  {
    table.Keys <= {Version1} &&
    (Version1 in table <==> exists i :: 0 <= i < |addrs| && HasProtocol(addrs[i], P_QUIC_V1)) &&
    (Version1 in table ==>
       exists i :: 0 <= i < |addrs| && HasProtocol(addrs[i], P_QUIC_V1) && table[Version1] == addrs[i] &&
                   forall j :: i < j < |addrs| ==> !HasProtocol(addrs[j], P_QUIC_V1))
  }

  /** The loop of `newListener` that fills `localMultiaddrs`. */
  method LocalMultiaddrs(addrs: seq<Multiaddr>) returns (table: map<Version, Multiaddr>)
    ensures IsLocalTable(addrs, table)
  {
    table := map[];
    ghost var last := -1;
    for n := 0 to |addrs|
      invariant -1 <= last < n
      invariant last == -1 ==> table == map[] && forall j :: 0 <= j < n ==> !HasProtocol(addrs[j], P_QUIC_V1)
      invariant last >= 0 ==> table == map[Version1 := addrs[last]] && HasProtocol(addrs[last], P_QUIC_V1) &&
                              forall j :: last < j < n ==> !HasProtocol(addrs[j], P_QUIC_V1)
    {
      if ValueForProtocol(addrs[n], P_QUIC_V1).Some? {
        table := table[Version1 := addrs[n]];
        last := n;
      }
    }
  }

  /** An answer of the reuse listener's `Accept`: a raw connection or an error. */
  datatype RawAccept = Arrived(session: QuicSession) | AcceptFailed(err: string)

  /**
   * The answer of `Accept`. `Blocked` stands for a raw `Accept` that is still
   * waiting because the modelled reuse listener has nothing more to hand out.
   */
  datatype AcceptResult = Accepted(conn: Conn) | AcceptError(err: string) | Blocked

  datatype WrapError =
    | AddrConversionFailed
    | ScopeRefused
    | BadCertificate
    | BadPublicKey
    | PeerRefused
    | UnknownVersion(version: Version)

  /** The raw connections among the answers `q`. */
  ghost function Sessions(q: seq<RawAccept>): set<QuicSession>
  {
    set e | e in q && e.Arrived? :: e.session
  }

  /** The scopes the reuse layer attached to the raw connections among the answers `q`. */
  ghost function AttachedScopes(q: seq<RawAccept>): set<Scope>
  {
    set e, s | e in q && e.Arrived? && s in AttachedScope(e.session) :: s
  }

  /** The close codes of the raw connections among `q`. */
  ghost function CodesOf(q: seq<RawAccept>): map<QuicSession, seq<CloseCode>>
    reads Sessions(q)`closeCodes
  {
    map x | x in Sessions(q) :: x.closeCodes
  }

  /**
   * Every raw connection among `q` holds the close codes it held in `before`
   * followed by those the turns `fates` over `taken` gave it.
   */
  ghost predicate ClosesFollow(q: seq<RawAccept>, before: map<QuicSession, seq<CloseCode>>,
                               taken: seq<QuicSession>, fates: seq<Fate>)
    reads Sessions(q)`closeCodes
  {
    |taken| == |fates| &&
    forall x :: x in Sessions(q) ==> x in before && x.closeCodes == before[x] + TurnCloses(x, taken, fates)
  }

  /**
   * After one more turn over `s`, in which the raw connection `x` gained the
   * resource-limit code if it is `s` and was dropped, and nothing otherwise,
   * `x` still holds the close codes of the run.
   */
  lemma CloseStep(x: QuicSession, before: seq<CloseCode>, mid: seq<CloseCode>, now: seq<CloseCode>,
                  taken: seq<QuicSession>, fates: seq<Fate>, s: QuicSession, f: Fate)
    requires |taken| == |fates| && mid == before + TurnCloses(x, taken, fates)
    requires now == mid + (if s == x && f.Dropped? then [ResourceLimitExceeded] else [])
    ensures now == before + TurnCloses(x, taken + [s], fates + [f])
  {
    assert (taken + [s])[..|taken|] == taken && (fates + [f])[..|fates|] == fates;
  }

  /** A raw connection among the answers `q` is one of their sessions, and its attached scope one of theirs. */
  lemma ArrivedAmong(q: seq<RawAccept>, i: nat)
    requires i < |q| && q[i].Arrived?
    ensures q[i].session in Sessions(q) && AttachedScope(q[i].session) <= AttachedScopes(q)
  {
    assert q[i] in q;
  }

  /** `taken` stays the list of raw connections that open the answers `q` when the next one is taken. */
  lemma TakenStep(q: seq<RawAccept>, taken: seq<QuicSession>, s: QuicSession)
    requires |taken| < |q| && q[|taken|] == Arrived(s)
    requires forall i :: 0 <= i < |taken| ==> q[i] == Arrived(taken[i])
    ensures forall i :: 0 <= i < |taken + [s]| ==> q[i] == Arrived((taken + [s])[i])
  {
  }

  /** A turn appended to a run with no surfaced connection is the only one that can surface. */
  lemma OnlyLastSurfaces(fates: seq<Fate>, f: Fate)
    requires forall g :: g in fates ==> !g.Surfaced?
    ensures forall i :: 0 <= i < |fates + [f]| && (fates + [f])[i].Surfaced? ==> i == |fates|
  {
    forall i | 0 <= i < |fates|
      ensures !(fates + [f])[i].Surfaced?
    {
      assert (fates + [f])[i] == fates[i] && fates[i] in fates;
    }
  }

  /** What the model records of a scope: its `SetPeer` calls and its `Done` count. */
  datatype ScopeState = ScopeState(peerLog: seq<PeerId>, doneCount: nat)

  /** What the scope `s` has recorded so far: its peer bindings and its releases. */
  ghost function StateOf(s: Scope): ScopeState
    reads s`peerLog, s`doneCount
  {
    ScopeState(s.peerLog, s.doneCount)
  }

  /** The recorded state of the scopes attached to the raw connections among `q`. */
  ghost function ScopesOf(q: seq<RawAccept>): map<Scope, ScopeState>
    reads AttachedScopes(q)`peerLog, AttachedScopes(q)`doneCount
  {
    map x | x in AttachedScopes(q) :: StateOf(x)
  }

  /**
   * The scope `x` stands at `now` after it stood at `before` and the turns
   * `fates` over `taken` made their bindings and releases on it.
   */
  ghost predicate ScopeFollows(cfg: Config, x: Scope, before: ScopeState, now: ScopeState,
                               taken: seq<QuicSession>, fates: seq<Fate>)
  {
    |taken| == |fates| &&
    now == ScopeState(before.peerLog + AttachedBindings(cfg, x, taken), before.doneCount + AttachedReleases(x, taken, fates))
  }

  /**
   * Every scope attached to a raw connection among `q` records what `before`
   * recorded, followed by the bindings and releases the turns `fates` over
   * `taken` made on it.
   */
  ghost predicate ScopesFollow(cfg: Config, q: seq<RawAccept>, before: map<Scope, ScopeState>,
                               taken: seq<QuicSession>, fates: seq<Fate>)
    reads AttachedScopes(q)`peerLog, AttachedScopes(q)`doneCount
  {
    |taken| == |fates| &&
    forall x :: x in AttachedScopes(q) ==> x in before && ScopeFollows(cfg, x, before[x], StateOf(x), taken, fates)
  }

  /**
   * After one more turn over `s`, in which the scope `x` gained that turn's
   * binding and release if it is the scope of `s` and nothing otherwise, `x`
   * still follows the run.
   */
  lemma ScopeStep(cfg: Config, x: Scope, before: ScopeState, mid: ScopeState, now: ScopeState,
                  taken: seq<QuicSession>, fates: seq<Fate>, s: QuicSession, f: Fate)
    requires ScopeFollows(cfg, x, before, mid, taken, fates)
    requires now == (if x == s.attachedScope
                     then ScopeState(mid.peerLog + Binding(cfg, s), mid.doneCount + Releases(s, f))
                     else mid)
    ensures ScopeFollows(cfg, x, before, now, taken + [s], fates + [f])
  {
    assert (taken + [s])[..|taken|] == taken && (fates + [f])[..|fates|] == fates;
    var bound := if s.attachedScope == x then Binding(cfg, s) else [];
    assert AttachedBindings(cfg, x, taken + [s]) == AttachedBindings(cfg, x, taken) + bound;
    assert before.peerLog + AttachedBindings(cfg, x, taken + [s]) ==
           (before.peerLog + AttachedBindings(cfg, x, taken)) + bound;
  }

  /**
   * `s`, recorded as `st`, is the scope the resource manager opened for `x`
   * in a turn with fate `f`: inbound, without a file descriptor, for the
   * converted address, bound to the peer, released once if and only if the
   * turn dropped `x`, and otherwise held by the connection the turn made.
   */
  ghost predicate OpenedAs(cfg: Config, s: Scope, st: ScopeState, x: QuicSession, f: Fate)
  {
    s.direction == Inbound && !s.usefd && x.remoteMultiaddr.Some? && s.remote == x.remoteMultiaddr.value &&
    st == ScopeState(Binding(cfg, x), Releases(x, f)) &&
    (!f.Dropped? ==> f.conn.scope == s)
  }

  /**
   * `scopes` are the scopes opened by the opening turns of the run `fates`
   * over `taken`, one per turn and in order.
   */
  ghost predicate OpenedFollow(cfg: Config, scopes: seq<Scope>, taken: seq<QuicSession>, fates: seq<Fate>)
    reads scopes
  {
    |taken| == |fates| && |scopes| == |OpeningTurns(taken)| &&
    forall j :: 0 <= j < |scopes| ==>
      OpenedAs(cfg, scopes[j], StateOf(scopes[j]), taken[OpeningTurns(taken)[j]], fates[OpeningTurns(taken)[j]])
  }

  /**
   * The scopes opened by a run extended by one turn: those of the run
   * followed by the one the turn opened, if any.
   */
  lemma OpenedStep(cfg: Config, scopes: seq<Scope>, nextScopes: seq<Scope>,
                   taken: seq<QuicSession>, fates: seq<Fate>, s: QuicSession, f: Fate)
    requires OpenedFollow(cfg, scopes, taken, fates)
    requires |nextScopes| == |scopes| + (if OpensScope(s) then 1 else 0) && nextScopes[..|scopes|] == scopes
    requires OpensScope(s) ==> OpenedAs(cfg, nextScopes[|scopes|], StateOf(nextScopes[|scopes|]), s, f)
    ensures OpenedFollow(cfg, nextScopes, taken + [s], fates + [f])
  {
    var turns := OpeningTurns(taken + [s]);
    assert (taken + [s])[..|taken|] == taken && (fates + [f])[..|fates|] == fates;
    assert turns == OpeningTurns(taken) + (if OpensScope(s) then [|taken|] else []);
    forall j | 0 <= j < |nextScopes|
      ensures OpenedAs(cfg, nextScopes[j], StateOf(nextScopes[j]), (taken + [s])[turns[j]], (fates + [f])[turns[j]])
    {
      if j < |scopes| {
        var i := turns[j];
        assert i == OpeningTurns(taken)[j];
        assert nextScopes[j] == nextScopes[..|scopes|][j];
        assert (taken + [s])[i] == taken[i] && (fates + [f])[i] == fates[i];
      }
    }
  }

  /** None of the scopes `scopes` is one of `attached`. */
  ghost predicate Apart(scopes: seq<Scope>, attached: set<Scope>)
  {
    forall s :: s in scopes ==> s !in attached
  }

  /** Opening a scope that is none of `attached` keeps the opened scopes apart from them. */
  lemma ApartStep(scopes: seq<Scope>, nextScopes: seq<Scope>, attached: set<Scope>)
    requires Apart(scopes, attached)
    requires |scopes| <= |nextScopes| <= |scopes| + 1
    requires forall j :: 0 <= j < |scopes| ==> nextScopes[j] == scopes[j]
    requires |scopes| < |nextScopes| ==> nextScopes[|scopes|] !in attached
    ensures Apart(nextScopes, attached)
  {
    forall s | s in nextScopes
      ensures s !in attached
    {
      var j :| 0 <= j < |nextScopes| && nextScopes[j] == s;
      if j < |scopes| {
        assert scopes[j] in scopes;
      }
    }
  }

  /** A sequence that only grew keeps, from any index on, what it held from there. */
  lemma SuffixKept<T>(s: seq<T>, next: seq<T>, n: nat)
    requires n <= |s| <= |next| && next[..|s|] == s
    ensures next[n..][..|s| - n] == s[n..]
  {
    forall j | 0 <= j < |s| - n
      ensures next[n..][..|s| - n][j] == s[n..][j]
    {
      assert next[..|s|][n + j] == s[n + j];
    }
  }

  /** Appending to a concatenation appends to its second part. */
  lemma AppendAssoc<T>(a: seq<T>, b: seq<T>, c: seq<T>)
    ensures (a + b) + c == a + (b + c)
  {
  }

  /** A sequence that only grew keeps any prefix of what it was. */
  lemma PrefixKept<T>(s: seq<T>, next: seq<T>, n: nat)
    requires n <= |s| <= |next| && next[..|s|] == s
    ensures next[..n] == s[..n]
  {
    assert next[..n] == next[..|s|][..n];
  }

  /** A QUIC listener. */
  class Listener {
    const transport: QuicTransport
    const rcmgr: ResourceManager
    const localPeer: PeerId
    const localMultiaddrs: map<Version, Multiaddr>
    /** `peer.IDFromPublicKey`, which fails for keys it cannot hash. */
    const peerIdOf: PubKey -> Option<PeerId>

    /** `newListener`: builds the local-address table from the reuse listener's addresses. */
    constructor (listenAddrs: seq<Multiaddr>, transport: QuicTransport,
                 localPeer: PeerId, rcmgr: ResourceManager, peerIdOf: PubKey -> Option<PeerId>)
      ensures IsLocalTable(listenAddrs, localMultiaddrs)
      ensures this.transport == transport && this.rcmgr == rcmgr
      ensures this.localPeer == localPeer && this.peerIdOf == peerIdOf
    {
      var table := LocalMultiaddrs(listenAddrs);
      this.transport, this.rcmgr := transport, rcmgr;
      this.localPeer, this.peerIdOf, this.localMultiaddrs := localPeer, peerIdOf, table;
    }

    /** The fixed part of this listener that decides the fate of a raw connection. */
    function Cfg(): Config
    {
      Config(localPeer, localMultiaddrs, peerIdOf, transport.gater)
    }

    /**
     * `wrapConnWithScope`: derives the remote identity, binds the scope to it
     * and looks up the local address for the negotiated version. It never
     * releases the scope.
     */
    method WrapConnWithScope(qconn: QuicSession, scope: Scope, remoteMultiaddr: Multiaddr)
      returns (r: Result<Conn, WrapError>)
      modifies scope`peerLog
      ensures scope.peerLog == old(scope.peerLog) +
                (if RemotePeer(Cfg(), qconn).Some? then [RemotePeer(Cfg(), qconn).value] else [])
      ensures qconn.certKey.None? ==> r == Err(BadCertificate)
      ensures qconn.certKey.Some? && RemotePeer(Cfg(), qconn).None? ==> r == Err(BadPublicKey)
      ensures RemotePeer(Cfg(), qconn).Some? && !qconn.admitPeer ==> r == Err(PeerRefused)
      ensures RemotePeer(Cfg(), qconn).Some? && qconn.admitPeer && qconn.version !in localMultiaddrs ==>
                r == Err(UnknownVersion(qconn.version))
      ensures r.Ok? <==> RemotePeer(Cfg(), qconn).Some? && qconn.admitPeer && qconn.version in localMultiaddrs
      ensures r.Ok? ==> r.value.session == qconn && r.value.scope == scope &&
                        r.value.remoteMultiaddr == remoteMultiaddr &&
                        r.value.localPeer == localPeer &&
                        r.value.localMultiaddr == localMultiaddrs[qconn.version] &&
                        r.value.remotePeer == RemotePeer(Cfg(), qconn).value &&
                        r.value.remotePubKey == qconn.certKey.value
    {
      if qconn.certKey.None? {
        return Err(BadCertificate);
      }
      var remotePubKey := qconn.certKey.value;
      var remotePeerId := peerIdOf(remotePubKey);
      if remotePeerId.None? {
        return Err(BadPublicKey);
      }
      var ok := scope.SetPeer(remotePeerId.value, qconn.admitPeer);
      if !ok {
        return Err(PeerRefused);
      }
      if qconn.version !in localMultiaddrs {
        return Err(UnknownVersion(qconn.version));
      }
      r := Ok(Conn(qconn, scope, localPeer, localMultiaddrs[qconn.version], remoteMultiaddr,
                   remotePeerId.value, remotePubKey));
    }

    /**
     * `wrapConn`: acquires a scope (the one attached by the reuse layer, or a
     * fresh inbound one without a file descriptor from the resource manager),
     * wraps, and releases the scope exactly once if wrapping fails after
     * acquisition.
     * On success the scope belongs to the returned connection and is not
     * released.
     */
    method WrapConn(qconn: QuicSession) returns (r: Result<Conn, WrapError>)
      modifies rcmgr`scopes, AttachedScope(qconn)
      ensures r.Ok? <==> Wrapped(Cfg(), qconn).Some?
      ensures r.Ok? ==> r.value.session == qconn && View(r.value) == Wrapped(Cfg(), qconn).value
      ensures qconn.remoteMultiaddr.None? ==> r == Err(AddrConversionFailed)
      // the resource manager opens a scope only when none is attached
      ensures qconn.remoteMultiaddr.None? || qconn.attachedScope != null || !qconn.admitConn ==>
                rcmgr.scopes == old(rcmgr.scopes)
      ensures qconn.remoteMultiaddr.Some? && qconn.attachedScope == null && !qconn.admitConn ==>
                r == Err(ScopeRefused)
      ensures qconn.remoteMultiaddr.Some? && qconn.attachedScope == null && qconn.admitConn ==>
                |rcmgr.scopes| == |old(rcmgr.scopes)| + 1 &&
                rcmgr.scopes[..|old(rcmgr.scopes)|] == old(rcmgr.scopes) &&
                var s := rcmgr.scopes[|old(rcmgr.scopes)|];
                fresh(s) && s.direction == Inbound && !s.usefd && s.remote == qconn.remoteMultiaddr.value &&
                s.peerLog == (if RemotePeer(Cfg(), qconn).Some? then [RemotePeer(Cfg(), qconn).value] else []) &&
                s.doneCount == (if r.Ok? then 0 else 1) &&
                (r.Ok? ==> r.value.scope == s)
      // a scope attached by the reuse layer is used, and released at most once
      ensures qconn.attachedScope != null && qconn.remoteMultiaddr.None? ==>
                qconn.attachedScope.peerLog == old(qconn.attachedScope.peerLog) &&
                qconn.attachedScope.doneCount == old(qconn.attachedScope.doneCount)
      ensures qconn.attachedScope != null && qconn.remoteMultiaddr.Some? ==>
                var s := qconn.attachedScope;
                s.peerLog == old(s.peerLog) +
                  (if RemotePeer(Cfg(), qconn).Some? then [RemotePeer(Cfg(), qconn).value] else []) &&
                s.doneCount == old(s.doneCount) + (if r.Ok? then 0 else 1) &&
                (r.Ok? ==> r.value.scope == s)
    {
      if qconn.remoteMultiaddr.None? {
        return Err(AddrConversionFailed);
      }
      var remoteMultiaddr := qconn.remoteMultiaddr.value;
      var connScope: Scope? := qconn.attachedScope;
      if connScope == null {
        connScope := rcmgr.OpenConnection(Inbound, false, remoteMultiaddr, qconn.admitConn);
        if connScope == null {
          return Err(ScopeRefused);
        }
      }
      r := WrapConnWithScope(qconn, connScope, remoteMultiaddr);
      if r.Err? {
        connScope.Done();
      }
    }

    /**
     * One turn of the accept loop after the reuse listener handed out `qconn`:
     * wrap it or close it with `ResourceLimitExceeded`, record it with
     * `addConn`, close it with `Gated` if the gater objects, deliver it to a
     * matching unfulfilled hole punch, or let it surface.
     */
    method Handle(qconn: QuicSession) returns (fate: Fate)
      modifies transport`conns, transport`connCloses, transport`holePunching
      modifies rcmgr`scopes, qconn, AttachedScope(qconn)
      ensures Fits(Cfg(), old(transport.holePunching), qconn, fate)
      ensures transport.holePunching == Apply(old(transport.holePunching), fate)
      ensures transport.conns == old(transport.conns) + (if fate.Dropped? then [] else [fate.conn])
      ensures transport.connCloses == old(transport.connCloses) + (if fate.Refused? then [ConnClose(fate.conn, Gated)] else [])
      ensures qconn.closeCodes == old(qconn.closeCodes) + (if fate.Dropped? then [ResourceLimitExceeded] else [])
      // the scope the session brings is bound to its peer, and released only when it is dropped
      ensures qconn.attachedScope != null ==>
                qconn.attachedScope.peerLog == old(qconn.attachedScope.peerLog) + Binding(Cfg(), qconn) &&
                qconn.attachedScope.doneCount == old(qconn.attachedScope.doneCount) + Releases(qconn, fate)
      // a scope opened for the session is released exactly when it is dropped
      ensures !OpensScope(qconn) ==> rcmgr.scopes == old(rcmgr.scopes)
      ensures OpensScope(qconn) ==>
                |rcmgr.scopes| == |old(rcmgr.scopes)| + 1 && rcmgr.scopes[..|old(rcmgr.scopes)|] == old(rcmgr.scopes) &&
                fresh(rcmgr.scopes[|old(rcmgr.scopes)|]) &&
                OpenedAs(Cfg(), rcmgr.scopes[|old(rcmgr.scopes)|], StateOf(rcmgr.scopes[|old(rcmgr.scopes)|]), qconn, fate)
    {
      var wrapped := WrapConn(qconn);
      if wrapped.Err? {
        qconn.CloseWithError(ResourceLimitExceeded);
        return Dropped;
      }
      var c := wrapped.value;
      transport.AddConn(c);
      if !Allows(transport.gater, View(c)) {
        transport.CloseConn(c, Gated);
        return Refused(c);
      }
      var key := HolePunchKey(qconn.remoteAddr, c.remotePeer);
      var wasHolePunch := transport.DeliverHolePunch(key, c);
      if wasHolePunch {
        return HandedOver(c);
      }
      return Surfaced(c);
    }

    /**
     * The transport's state after the turns `fates` over the raw connections
     * `taken`, from a registry and `addConn`/`closeWithError` records that
     * started as `registry`, `conns` and `closes`.
     */
    ghost predicate RunState(registry: Registry, conns: seq<Conn>, closes: seq<ConnClose>,
                             taken: seq<QuicSession>, fates: seq<Fate>)
      reads transport`holePunching, transport`conns, transport`connCloses
    {
      ValidRun(Cfg(), registry, taken, fates) &&
      transport.holePunching == Replay(registry, fates) &&
      transport.conns == conns + AddedConns(fates) &&
      transport.connCloses == closes + GatedCloses(fates)
    }

    /**
     * The scopes follow the run `fates` over `taken`: each scope attached to a
     * raw connection among `q` went from `states` through the run's bindings
     * and releases, the resource manager's list of scopes kept `scopes` as its
     * start, and what follows are the scopes the run opened, none of them an
     * attached one.
     */
    ghost predicate ScopesKept(q: seq<RawAccept>, states: map<Scope, ScopeState>, scopes: seq<Scope>,
                               taken: seq<QuicSession>, fates: seq<Fate>)
      reads rcmgr`scopes, rcmgr.scopes
      reads AttachedScopes(q)`peerLog, AttachedScopes(q)`doneCount
    {
      ScopesFollow(Cfg(), q, states, taken, fates) &&
      |scopes| <= |rcmgr.scopes| && rcmgr.scopes[..|scopes|] == scopes &&
      Apart(rcmgr.scopes[|scopes|..], AttachedScopes(q)) &&
      OpenedFollow(Cfg(), rcmgr.scopes[|scopes|..], taken, fates)
    }

    /**
     * The scopes keep following the run after one more turn: the attached
     * ones by the turn's bindings and releases, and the resource manager's
     * list, which was `before`, by the scope the turn opened, if any.
     */
    lemma KeptStep(q: seq<RawAccept>, states: map<Scope, ScopeState>, scopes: seq<Scope>, before: seq<Scope>,
                   taken: seq<QuicSession>, fates: seq<Fate>, s: QuicSession, f: Fate)
      requires ScopesFollow(Cfg(), q, states, taken + [s], fates + [f])
      requires |scopes| <= |before| && before[..|scopes|] == scopes
      requires Apart(before[|scopes|..], AttachedScopes(q))
      requires OpenedFollow(Cfg(), before[|scopes|..], taken, fates)
      requires !OpensScope(s) ==> rcmgr.scopes == before
      requires OpensScope(s) ==>
                 |rcmgr.scopes| == |before| + 1 && rcmgr.scopes[..|before|] == before &&
                 rcmgr.scopes[|before|] !in AttachedScopes(q) &&
                 OpenedAs(Cfg(), rcmgr.scopes[|before|], StateOf(rcmgr.scopes[|before|]), s, f)
      ensures ScopesKept(q, states, scopes, taken + [s], fates + [f])
    {
      var opened0, opened1 := before[|scopes|..], rcmgr.scopes[|scopes|..];
      SuffixKept(before, rcmgr.scopes, |scopes|);
      OpenedStep(Cfg(), opened0, opened1, taken, fates, s, f);
      ApartStep(opened0, opened1, AttachedScopes(q));
      PrefixKept(before, rcmgr.scopes, |scopes|);
    }

    /**
     * `Handle`, seen from the raw connections `q`: their close codes and the
     * scopes attached to them keep following the run `fates` over `taken`
     * extended by this turn.
     */
    method AttachedHandle(qconn: QuicSession, ghost q: seq<RawAccept>, ghost codes: map<QuicSession, seq<CloseCode>>,
                          ghost states: map<Scope, ScopeState>, ghost taken: seq<QuicSession>, ghost fates: seq<Fate>)
      returns (fate: Fate)
      requires AttachedScope(qconn) <= AttachedScopes(q)
      requires ClosesFollow(q, codes, taken, fates)
      requires ScopesFollow(Cfg(), q, states, taken, fates)
      modifies transport`conns, transport`connCloses, transport`holePunching
      modifies rcmgr`scopes, qconn, AttachedScope(qconn)
      ensures Fits(Cfg(), old(transport.holePunching), qconn, fate)
      ensures transport.holePunching == Apply(old(transport.holePunching), fate)
      ensures transport.conns == old(transport.conns) + (if fate.Dropped? then [] else [fate.conn])
      ensures transport.connCloses == old(transport.connCloses) + (if fate.Refused? then [ConnClose(fate.conn, Gated)] else [])
      ensures ClosesFollow(q, codes, taken + [qconn], fates + [fate])
      ensures ScopesFollow(Cfg(), q, states, taken + [qconn], fates + [fate])
      ensures !OpensScope(qconn) ==> rcmgr.scopes == old(rcmgr.scopes)
      ensures OpensScope(qconn) ==>
                |rcmgr.scopes| == |old(rcmgr.scopes)| + 1 && rcmgr.scopes[..|old(rcmgr.scopes)|] == old(rcmgr.scopes) &&
                fresh(rcmgr.scopes[|old(rcmgr.scopes)|]) &&
                OpenedAs(Cfg(), rcmgr.scopes[|old(rcmgr.scopes)|], StateOf(rcmgr.scopes[|old(rcmgr.scopes)|]), qconn, fate)
    {
      fate := Handle(qconn);
      forall x | x in Sessions(q)
        ensures x.closeCodes == codes[x] + TurnCloses(x, taken + [qconn], fates + [fate])
      {
        CloseStep(x, codes[x], old(x.closeCodes), x.closeCodes, taken, fates, qconn, fate);
      }
      forall x | x in AttachedScopes(q)
        ensures ScopeFollows(Cfg(), x, states[x], StateOf(x), taken + [qconn], fates + [fate])
      {
        if x != qconn.attachedScope {
          assert x !in AttachedScope(qconn);
        }
        ScopeStep(Cfg(), x, states[x], old(StateOf(x)), StateOf(x), taken, fates, qconn, fate);
      }
    }

    /**
     * One turn of the accept loop (`Handle`), as the next step of the run
     * `fates` over `taken`: the transport's state, the close codes of the raw
     * connections `q`, the scopes attached to them and the scopes opened
     * after `scopes` keep following the run.
     */
    method Turn(qconn: QuicSession, ghost q: seq<RawAccept>, ghost codes: map<QuicSession, seq<CloseCode>>,
                ghost states: map<Scope, ScopeState>, ghost scopes: seq<Scope>,
                ghost registry: Registry, ghost conns: seq<Conn>, ghost closes: seq<ConnClose>,
                ghost taken: seq<QuicSession>, ghost fates: seq<Fate>) returns (fate: Fate)
      requires AttachedScope(qconn) <= AttachedScopes(q)
      requires RunState(registry, conns, closes, taken, fates) && ClosesFollow(q, codes, taken, fates)
      requires ScopesKept(q, states, scopes, taken, fates)
      modifies transport`conns, transport`connCloses, transport`holePunching
      modifies rcmgr`scopes, qconn, AttachedScope(qconn)
      ensures RunState(registry, conns, closes, taken + [qconn], fates + [fate])
      ensures ClosesFollow(q, codes, taken + [qconn], fates + [fate])
      ensures ScopesKept(q, states, scopes, taken + [qconn], fates + [fate])
    {
      ghost var opened0 := rcmgr.scopes[|scopes|..];
      fate := AttachedHandle(qconn, q, codes, states, taken, fates);
      assert RunState(registry, conns, closes, taken + [qconn], fates + [fate]) by {
        RunStep(Cfg(), registry, taken, fates, qconn, fate);
        AppendAssoc(conns, AddedConns(fates), if fate.Dropped? then [] else [fate.conn]);
        AppendAssoc(closes, GatedCloses(fates), if fate.Refused? then [ConnClose(fate.conn, Gated)] else []);
      }
      forall s | s in opened0
        ensures s !in AttachedScope(qconn)
      {
      }
      assert OpenedFollow(Cfg(), opened0, taken, fates);
      assert ScopesKept(q, states, scopes, taken + [qconn], fates + [fate]) by {
        if OpensScope(qconn) {
          assert fresh(rcmgr.scopes[|old(rcmgr.scopes)|]);
        }
        KeptStep(q, states, scopes, old(rcmgr.scopes), taken, fates, qconn, fate);
      }
    }

    /**
     * `Accept`: takes raw connections from the reuse listener, which answers
     * `arrivals` in order, until one surfaces; `consumed` is how many answers
     * it took. A raw accept error ends the loop with that error; every other
     * raw connection taken goes through one turn (`Handle`); `taken` lists
     * those connections and `fates` what each turn did. The registry, the
     * `addConn` records, the gated closes, the close codes of the raw
     * connections, and the bindings and releases of every scope attached or
     * opened are what the pure account of the run says they are; `codes`,
     * `states` and `scopes` are the close codes, the attached scopes' records
     * and the resource manager's scopes as they stood when the call began.
     */
    method Accept(arrivals: seq<RawAccept>)
      returns (r: AcceptResult, consumed: nat, ghost taken: seq<QuicSession>, ghost fates: seq<Fate>,
               ghost codes: map<QuicSession, seq<CloseCode>>, ghost states: map<Scope, ScopeState>, ghost scopes: seq<Scope>)
      modifies transport`conns, transport`connCloses, transport`holePunching
      modifies rcmgr`scopes, Sessions(arrivals), AttachedScopes(arrivals)
      ensures |taken| <= consumed <= |arrivals| && forall i :: 0 <= i < |taken| ==> arrivals[i] == Arrived(taken[i])
      ensures RunState(old(transport.holePunching), old(transport.conns), old(transport.connCloses), taken, fates)
      // the loop ends on a raw accept error, on a surfacing connection, or when nothing is left
      ensures r.Blocked? ==> consumed == |taken| == |arrivals|
      ensures r.AcceptError? ==> consumed == |taken| + 1 && arrivals[|taken|] == AcceptFailed(r.err)
      ensures r.Accepted? ==> consumed == |taken| && 0 < |fates| && fates[|fates| - 1] == Surfaced(r.conn)
      ensures forall i :: 0 <= i < |fates| && fates[i].Surfaced? ==> r.Accepted? && i == |fates| - 1
      ensures codes == old(CodesOf(arrivals)) && ClosesFollow(arrivals, codes, taken, fates)
      // scope discipline over the whole loop
      ensures states == old(ScopesOf(arrivals)) && scopes == old(rcmgr.scopes)
      ensures ScopesKept(arrivals, states, scopes, taken, fates)
    {
      ghost var registry := transport.holePunching;
      ghost var conns := transport.conns;
      ghost var closes := transport.connCloses;
      codes := CodesOf(arrivals);
      states := ScopesOf(arrivals);
      scopes := rcmgr.scopes;
      taken, fates := [], [];
      assert rcmgr.scopes[..|scopes|] == scopes && rcmgr.scopes[|scopes|..] == [];
      r, consumed := Blocked, 0;
      while true
        invariant consumed == |taken| <= |arrivals|
        invariant forall i :: 0 <= i < |taken| ==> arrivals[i] == Arrived(taken[i])
        invariant RunState(registry, conns, closes, taken, fates)
        invariant ClosesFollow(arrivals, codes, taken, fates)
        invariant ScopesKept(arrivals, states, scopes, taken, fates)
        invariant forall f :: f in fates ==> !f.Surfaced?
        decreases |arrivals| - consumed
      {
        if consumed == |arrivals| {
          break;
        }
        if arrivals[consumed].AcceptFailed? {
          r, consumed := AcceptError(arrivals[consumed].err), consumed + 1;
          break;
        }
        var qconn := arrivals[consumed].session;
        ArrivedAmong(arrivals, consumed);
        var fate := Turn(qconn, arrivals, codes, states, scopes, registry, conns, closes, taken, fates);
        TakenStep(arrivals, taken, qconn);
        OnlyLastSurfaces(fates, fate);
        taken, fates := taken + [qconn], fates + [fate];
        consumed := consumed + 1;
        if fate.Surfaced? {
          r := Accepted(fate.conn);
          break;
        }
      }
    }
  }
}
