/**
 * The collaborators both transports share: peer identities, connection
 * directions, the application close codes, and the resource manager with the
 * scopes it hands out. The resource manager's admission policy is not part of
 * this model: each admission verdict is passed in by the caller.
 */
module Network {
  import opened Multiaddr

  /** A peer identity (a multihash of the peer's public key in libp2p). */
  type PeerId = string

  datatype Direction = Inbound | Outbound

  /** Application error codes used when closing a raw session or connection. */
  datatype CloseCode = ResourceLimitExceeded | Gated

  /**
   * A connection management scope. The model records every `SetPeer` call
   * (`peerLog`) and counts `Done` calls (`doneCount`), which is what the
   * release discipline of the callers is stated against.
   */
  class Scope {
    const direction: Direction
    /** Whether the connection holds a file descriptor of its own (`usefd`). */
    const usefd: bool
    const remote: Multiaddr
    var peerLog: seq<PeerId>
    var doneCount: nat

    constructor (direction: Direction, usefd: bool, remote: Multiaddr)
      ensures this.direction == direction && this.usefd == usefd && this.remote == remote
      ensures peerLog == [] && doneCount == 0
    {
      this.direction, this.usefd, this.remote := direction, usefd, remote;
      peerLog, doneCount := [], 0;
    }

    /** Binds the scope to `p`; `admitted` is the resource manager's per-peer verdict. */
    method SetPeer(p: PeerId, admitted: bool) returns (ok: bool)
      modifies this`peerLog
      ensures peerLog == old(peerLog) + [p]
      ensures ok == admitted
    {
      peerLog := peerLog + [p];
      ok := admitted;
    }

    /** Releases the scope. */
    method Done()
      modifies this`doneCount
      ensures doneCount == old(doneCount) + 1
    {
      doneCount := doneCount + 1;
    }
  }

  /** The resource manager, seen through the scopes it has opened. */
  class ResourceManager {
    var scopes: seq<Scope>

    constructor ()
      ensures scopes == []
    {
      scopes := [];
    }

    /**
     * `OpenConnection(dir, usefd, addr)`: a fresh scope when `admitted`,
     * none (Go: an error) otherwise.
     */
    method OpenConnection(dir: Direction, usefd: bool, addr: Multiaddr, admitted: bool)
      returns (s: Scope?)
      modifies this`scopes
      ensures admitted <==> s != null
      ensures s == null ==> scopes == old(scopes)
      ensures s != null ==> fresh(s) && scopes == old(scopes) + [s]
      ensures s != null ==> s.direction == dir && s.usefd == usefd && s.remote == addr
                            && s.peerLog == [] && s.doneCount == 0
    {
      if admitted {
        s := new Scope(dir, usefd, addr);
        scopes := scopes + [s];
      } else {
        s := null;
      }
    }
  }
}
