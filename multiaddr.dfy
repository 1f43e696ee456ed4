/**
 * Multiaddresses, reduced to what the connection layer inspects: the list of
 * protocol components, each a protocol code with its (possibly empty) value.
 * Binary encoding and parsing are not part of this model.
 */
module Multiaddr {
  import opened Wrappers

  /** Protocol codes of the multicodec table that this layer looks for. */
  const P_CIRCUIT: nat := 0x0122
  const P_QUIC_V1: nat := 0x01cc

  datatype Component = Component(code: nat, value: string)

  type Multiaddr = seq<Component>

  /** True when `a` has some component with protocol `code`. */
  ghost predicate Carries(a: Multiaddr, code: nat)
  {
    exists i :: 0 <= i < |a| && a[i].code == code
  }

  /**
   * `Multiaddr.ValueForProtocol`: the value of the first component with
   * protocol `code`; no value (Go: a non-nil error) when there is none.
   */
  function ValueForProtocol(a: Multiaddr, code: nat): (r: Option<string>)
    ensures r.Some? <==> Carries(a, code)
    ensures r.Some? ==> exists i :: 0 <= i < |a| && a[i].code == code && a[i].value == r.value
                                    && forall j :: 0 <= j < i ==> a[j].code != code
  {
    if a == [] then None
    else if a[0].code == code then Some(a[0].value)
    else
      TailComponents(a);
      ValueForProtocol(a[1..], code)
  }

  /** The components after the first are those of the tail, one index lower. */
  lemma TailComponents(a: Multiaddr)
    requires a != []
    ensures forall i :: 1 <= i < |a| ==> a[i] == a[1..][i - 1]
  {
  }

  /** `ValueForProtocol(code)` succeeds: the address has a `code` component. */
  predicate HasProtocol(a: Multiaddr, code: nat)
  {
    ValueForProtocol(a, code).Some?
  }
}
