# go-libp2p: QUIC listener, circuit-relay client transport, no-op peerstore cache

This project models three parts of go-libp2p in Dafny and proves properties of the model.

- **QUIC listener** (`p2p/transport/quic/listener.go`). When a listener is created it builds a table from QUIC version to local address. Its accept loop takes raw QUIC sessions from the reuse listener. Each session ends in one of four ways:
  - wrapping fails, and the session is closed with the resource-limit code;
  - the connection gater objects, and the wrapped connection is closed with the gated code;
  - the connection is handed to a pending hole punch with the same remote address and peer, which becomes fulfilled;
  - the connection is returned.

  Wrapping acquires a resource scope: either the one the reuse layer attached, or a new inbound scope that holds no file descriptor of its own (`usefd` false). It binds the remote peer to the scope and looks up the local address for the negotiated version. If a later step fails, the scope is released exactly once. Over a whole accept loop, every scope attached or opened is bound and released exactly as the pure account of the run says: a scope opened for a session is released once if that session was dropped and never otherwise.
- **Circuit-relay v2 client transport** (`p2p/protocol/circuitv2/client/transport.go`). `Dial` follows the same scope discipline: open the scope, set the peer, dial through the relay, tag the hop, upgrade, and call `Done` after any failure that follows the open. The address predicates (`CanDial`, the guard of `Listen`) and the constants (`Protocols`, `Proxy`, `SkipResolve`) are modelled, and so is `AddTransport`, which registers the client with the host's network.
- **Peerstore cache** (`p2p/host/peerstore/pstoreds/cache.go`). This is the cache interface and its no-op implementation. Reads always miss and writes are discarded.

Modules:

- `Wrappers`: `Option`, `Result`, `Outcome`.
- `Multiaddr`: an address is a sequence of `(code, value)` components; it provides `ValueForProtocol`.
- `Network`: peer identities, directions, close codes, and the resource manager with its scopes. A scope logs its `SetPeer` calls and counts its `Done` calls.
- `QuicConn`: sessions, connections, the hole-punch registry, and a pure account of the accept loop's turns and runs (`Fits`, `Apply`, `Replay`, `ValidRun`), with the lemmas about runs.
- `QuicListener`: the imperative listener. `Accept` is proved against the pure account in `QuicConn`.
- `RelayClient`: the relay transport. The steps `Dial` performs, in order, are given as a pure function (`DialSteps`), and `Dial` is proved to perform exactly those.
- `PeerstoreCache`: the cache.

Collaborators' verdicts are inputs to the model. This covers:

- the resource manager's admission decisions;
- converting the remote address to a multiaddress;
- reading the certificate key;
- the gater's hooks;
- the raw relay dial and the upgrader;
- the network's registration steps.

## Model

| member | source | states |
|---|---|---|
| Multiaddr.ValueForProtocol | p2p/protocol/circuitv2/client/transport.go:94 | a value is found exactly when the address has a component with the protocol, and it is the value of the first such component |
| Network.Scope.SetPeer | p2p/transport/quic/listener.go:128 | the peer is appended to the scope's log, and the call succeeds exactly when the resource manager admits the peer |
| Network.Scope.Done | p2p/transport/quic/listener.go:108 | the scope's release count rises by one |
| Network.ResourceManager.OpenConnection | p2p/transport/quic/listener.go:100 | a fresh scope is opened exactly when admitted, with the requested direction, file-descriptor flag (`usefd`) and address, no peer and no release; when refused, no scope is opened |
| QuicConn.QuicSession.CloseWithError | p2p/transport/quic/listener.go:56 | the close code is recorded on the raw session |
| QuicConn.RunStep | p2p/transport/quic/listener.go:48-80 | a run extended by a turn that fits is a run; its registry, `addConn` records, gated closes, per-session close codes, per-scope bindings and releases, and list of opening turns each extend by exactly that turn's effect |
| QuicConn.RunCloses | p2p/transport/quic/listener.go:53-57 | over any run, a session gets the resource-limit code once each time it is taken, if and only if it fails to wrap |
| QuicConn.ReplayKeepsKeys | p2p/transport/quic/listener.go:68-75 | the accept loop never adds or removes hole-punch records |
| QuicConn.RunDeliversAtMostOnce | p2p/transport/quic/listener.go:66-78 | over any run, each hole-punch record is either unchanged, or was unfulfilled and is now fulfilled with exactly one more delivery: a connection for its own key that wrapped and that the gater admitted |
| QuicConn.RunAdmitsOnlyAdmitted | p2p/transport/quic/listener.go:53-63 | a turn drops its session if and only if wrapping fails; it refuses the session if and only if it wraps but the gater objects; the session surfaces or is handed over if and only if it wraps and the gater admits it |
| QuicConn.FulfilledStays | p2p/transport/quic/listener.go:70-73 | once a hole-punch record is fulfilled, it stays fulfilled for the rest of the run |
| QuicConn.OpeningTurns | p2p/transport/quic/listener.go:98-104 | lists, in increasing order, exactly the turns whose session brings no scope, converts its address and is admitted by the resource manager |
| QuicConn.RunReleasesAttached | p2p/transport/quic/listener.go:86-113 | over any run, an attached scope is released once for each of its sessions that converted its address and then failed to wrap, and at no other time |
| QuicConn.RunReleasesOpened | p2p/transport/quic/listener.go:98-111 | over any run, the scope opened by each opening turn is released once if that turn's session failed to wrap, and never if it wrapped |
| QuicConn.HandOverExclusive | p2p/transport/quic/listener.go:68-75 | no two turns of a run hand their connections to the same hole-punch key |
| QuicConn.PrefixRun | p2p/transport/quic/listener.go:48-80 | every prefix of a run is a run, and the next turn fits the registry that the prefix leaves |
| QuicConn.DuplicateSessionScenario | p2p/transport/quic/listener.go:66-79 | two admitted sessions arrive for one pending key: the first fulfils the hole punch with one delivery, and the second is returned |
| QuicConn.RejectingGaterScenario | p2p/transport/quic/listener.go:60-63 | when the gater rejects every session, no connection surfaces or is handed over, and the registry is unchanged |
| QuicListener.QuicTransport.AddConn | p2p/transport/quic/listener.go:59 | the wrapped connection is recorded |
| QuicListener.QuicTransport.CloseConn | p2p/transport/quic/listener.go:61 | the close of the wrapped connection is recorded with its code |
| QuicListener.QuicTransport.DeliverHolePunch | p2p/transport/quic/listener.go:66-75 | delivers exactly when the key's record exists and is unfulfilled; it then appends the connection to that record and marks it fulfilled; every other record, and the map in the other cases, is unchanged |
| QuicListener.LocalMultiaddrs | p2p/transport/quic/listener.go:29-34 | the table has a key only for QUIC v1; the key is present if and only if some address carries QUIC v1, and the last such address is its entry |
| QuicListener.Listener.constructor | p2p/transport/quic/listener.go:28-44 | the listener holds such a table and the given collaborators |
| QuicListener.Listener.WrapConnWithScope | p2p/transport/quic/listener.go:115-148 | fails, in this order: on an unreadable certificate, on an underivable peer identity, on a refused peer, and on a version missing from the table. `SetPeer` is called with the derived peer before the version lookup. On success the connection carries the scope, the local peer, the table's address, the remote address, the peer and the key. The scope is never released |
| QuicListener.Listener.WrapConn | p2p/transport/quic/listener.go:86-113 | succeeds exactly when the pure account says the session wraps. A failed address conversion opens nothing. An attached scope is reused; otherwise a fresh inbound scope without a file descriptor is opened, and a refusal leaves nothing to release. The scope is released exactly once when wrapping fails after acquisition, and it is never released on success, where it belongs to the connection |
| QuicListener.Listener.Handle | p2p/transport/quic/listener.go:53-79 | the turn's fate fits the session and the registry. The registry becomes the fate applied to it. A connection is recorded when it wrapped, and closed with the gated code when the gater objected. The session gets the resource-limit code exactly when it was dropped. An attached scope is bound to the peer and released once exactly when the session was dropped after address conversion. The resource manager opens a scope only for a session that brings none; that scope is inbound, has no file descriptor, carries the converted address, is bound to the peer when one was derived, and is released once exactly when the session was dropped. A connection that is refused, handed over or surfaced holds the scope acquired for it: the attached one, or the one just opened |
| QuicListener.Listener.AttachedHandle | p2p/transport/quic/listener.go:53-79 | `Handle` as seen from the arrivals: one turn keeps every taken session's close codes and every attached scope's bindings and releases equal to the pure account of the run extended by that turn. A connection the turn makes holds its session's attached scope |
| QuicListener.Listener.Turn | p2p/transport/quic/listener.go:48-79 | one turn extends the run: the transport's state, the sessions' close codes, the attached scopes and the scopes opened so far still follow it. The resource manager's earlier scopes are kept, and no opened scope is an attached one. Every connection of the run holds the scope acquired for its session |
| QuicListener.Listener.Accept | p2p/transport/quic/listener.go:47-81 | the raw sessions it takes and their fates form a run from the starting registry. It returns an error only for a failed raw accept, and returns a connection only when it surfaces, as the last turn. Drops and gated closes continue the loop. The registry, the `addConn` records, the gated closes and every session's close codes are exactly those of the run. Every attached scope's bindings and releases are those of the run. The scopes the resource manager opened during the loop are exactly one per opening turn, in order, each released once if its session was dropped and never otherwise. Each connection the loop refuses, hands over or returns holds the scope acquired for its session, so no acquired scope is left without an owner |
| RelayClient.CanDial | p2p/protocol/circuitv2/client/transport.go:93-96 | true if and only if the address has a circuit component |
| RelayClient.Listen | p2p/protocol/circuitv2/client/transport.go:98-105 | fails, with the protocol-not-found error, if and only if the address lacks a circuit component; otherwise it returns the client listener, gated and then upgraded |
| RelayClient.Protocols | p2p/protocol/circuitv2/client/transport.go:107-109 | exactly one protocol, the circuit protocol |
| RelayClient.Proxy | p2p/protocol/circuitv2/client/transport.go:111-113 | always true |
| RelayClient.SkipResolve | p2p/protocol/circuitv2/client/transport.go:59-61 | always true, whatever the address |
| RelayClient.DialableIffListenable | p2p/protocol/circuitv2/client/transport.go:93-109 | an address can be dialled if and only if `Listen` accepts it, and if and only if it carries one of the transport's protocols |
| RelayClient.CircuitAddrListenable | p2p/protocol/circuitv2/client/transport.go:16-17 | the address that setup listens on passes `Listen`'s guard |
| RelayClient.DialReleasesOnce | p2p/protocol/circuitv2/client/transport.go:63-75 | `Dial` calls `Done` once if the scope was opened and a later step failed, and never otherwise; `Done` is always the last call |
| RelayClient.RefusedScopeCallsNothing | p2p/protocol/circuitv2/client/transport.go:64-68 | when the scope is refused, opening it is the only call made |
| RelayClient.UpgradeStepOrder | p2p/protocol/circuitv2/client/transport.go:77-91 | `SetPeer` comes first. The relay dial happens if and only if `SetPeer` succeeded. `tagHop` and then `Upgrade` happen if and only if the dial succeeded |
| RelayClient.Client.DialAndUpgrade | p2p/protocol/circuitv2/client/transport.go:77-91 | makes exactly the calls of the step order and binds the scope to the peer. Each failing step yields its error. Success wraps the upgraded relay connection, outbound to the peer, with the scope. The scope is never released |
| RelayClient.Client.Dial | p2p/protocol/circuitv2/client/transport.go:63-75 | makes exactly the calls of `DialSteps`. A refused scope yields the scope error and opens nothing. Otherwise one fresh outbound scope without a file descriptor, for the address, is opened and bound to the peer; it is released once on failure and never on success, where it belongs to the returned connection |
| RelayClient.Client.Start | p2p/protocol/circuitv2/client/transport.go:42 | the client is started |
| RelayClient.TransportNetwork.AddTransport | p2p/protocol/circuitv2/client/transport.go:32 | the client is registered exactly when the network accepts it |
| RelayClient.TransportNetwork.Listen | p2p/protocol/circuitv2/client/transport.go:37 | the address is listened on exactly when the network accepts it |
| RelayClient.AddTransport | p2p/protocol/circuitv2/client/transport.go:21-45 | steps run in order: type check, construct, add, listen on the circuit address, start. The first failure ends the setup with its error and leaves the later steps undone. The client is started if and only if every earlier step succeeded |
| PeerstoreCache.Cache.Get | p2p/host/peerstore/pstoreds/cache.go:20-22 | always the zero value and a miss |
| PeerstoreCache.Cache.Add | p2p/host/peerstore/pstoreds/cache.go:24-25 | the cache is left exactly as it was |
| PeerstoreCache.Cache.Remove | p2p/host/peerstore/pstoreds/cache.go:27-28 | the cache is left exactly as it was |
| PeerstoreCache.Cache.Contains | p2p/host/peerstore/pstoreds/cache.go:30-32 | always false |
| PeerstoreCache.Cache.Peek | p2p/host/peerstore/pstoreds/cache.go:34-36 | always the zero value and a miss |
| PeerstoreCache.Cache.Keys | p2p/host/peerstore/pstoreds/cache.go:38-40 | always empty |
| PeerstoreCache.WritesUnobservable | p2p/host/peerstore/pstoreds/cache.go:5-40 | after any sequence of `Add` and `Remove` calls the cache is unchanged: every read misses and there are no keys |
| PeerstoreCache.AddedKeyMisses | p2p/host/peerstore/pstoreds/cache.go:20-32 | a key that was just added is still reported missing by `Get`, `Contains` and `Peek` |

## Left out

- The listener's `Close` and `Addr` only delegate to the reuse listener. They are not modelled.
- Raw networking is out of scope: QUIC session I/O and the reuse listener's `Accept`. `Accept` takes the reuse listener's answers, in order, as its `arrivals` parameter and reports how many it consumed.
  - `Accept` returns `Blocked` when the answers run out; the real call would keep waiting.
- Address conversion (`quicreuse.ToQuicMultiaddr`) and the scope attached to the session's context are fixed inputs on each session.
- Certificate parsing (`PubKeyFromCertChain`) is an input: the certificate key, or none.
- `peer.IDFromPublicKey` is a function-valued input to the listener that may fail.
- The mutex around the hole-punch registry is modelled as one atomic step.
- `QuicListener.Listener.Accept` assumes that during one call only the loop's own turns change the hole-punch registry. Registrations and removals by the dialing side are not interleaved with the loop, so a record added, or removed and added again, while `Accept` waits for a raw session is not modelled. The loop-wide registry statements (`Accept`'s registry clause, `ReplayKeepsKeys`, `HandOverExclusive`, `RunDeliversAtMostOnce`) hold only under this assumption. `Handle`'s per-turn contract holds for whatever registry the turn finds.
- The send on a hole punch's channel is modelled as an append to the record's delivery list. Blocking and buffering are not modelled.
- The bodies of `addConn`, `closeWithError` and `removeConn` are not part of this model; only the calls are recorded. Closing a gated connection may release its scope inside `closeWithError`, and that is not counted.
- `Done` calls made by the upgrader on its own failure paths are not counted. Only `Done` calls made by the modelled files are.
- The raw relay dial (`c.dial`), `tagHop`'s effect on the connection manager, and the upgrader's handshake are not modelled. Their outcomes are inputs (`DialOutcomes`).
- The client's constructor `New` and `Start`'s background work are not modelled. Only success or failure of construction, and the fact that `Start` ran, are.
- The error values returned by collaborators are replaced by one error constructor per step. Error message text is not modelled.
- Close codes are symbolic (`ResourceLimitExceeded`, `Gated`). Their numeric values are defined in `core/network`, which is not part of this model.
- Multiaddresses are sequences of `(code, value)` components. Binary encoding and parsing are not modelled.
- The listener's private key field is stored but never used by the modelled code, so it is left out.
- Without traits, the cache interface is a datatype whose only variant is the no-op cache. The ARC cache behind the interface in production is not part of this model. Go's implicit zero value of the value type is the `zero` field.
- `QuicListener.Listener.Accept` states each session's close codes only for sessions that the reuse listener hands out. Other sessions are unchanged by the frame of the method.
- Logging is not modelled: the debug log calls at p2p/transport/quic/listener.go:55, 102 and 129 have no effect on the modelled state. The `context.Context` parameters of `SkipResolve`, `Dial` and `dialAndUpgrade` (p2p/protocol/circuitv2/client/transport.go:59, 63, 77) are dropped, so cancellation and deadlines are not modelled.
- `RelayClient.Client.DialAndUpgrade`: the unchecked type assertion `cc.(capableConnWithStat)` at p2p/protocol/circuitv2/client/transport.go:90 is taken to succeed. The panic it would raise on a connection that lacks the method is not modelled.
