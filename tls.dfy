/**
 * The TLS identity status of a connection, as data: why a connection has no
 * identity, or why its peer has none, and the fixed tokens these reasons
 * render to in metrics and logs.
 */
module Tls {
  import Identity

  /** A value, or the reason it is absent (the crate's `Conditional`). */
  datatype Conditional<C, R> = Some(value: C) | None(reason: R)

  /** A rendered token: non-empty, lower-case ASCII letters and underscores. */
  predicate IsToken(s: string) {
    |s| > 0 && forall i :: 0 <= i < |s| ==> ('a' <= s[i] <= 'z') || s[i] == '_'
  }

  /** Why the peer of a connection has no identity. */
  datatype ReasonForNoPeerIdentity =
    | /** A loopback connection, which neither needs nor supports TLS. */
      Loopback
    | /** An HTTP request without an authority to take the identity from. */
      NoAuthorityInHttpRequest
    | /** Not HTTP, so nothing is known of the destination beyond its address. */
      NotHttp
    | /** Service discovery gave no identity for the destination. */
      NotProvidedByServiceDiscovery
    | /** The client did not present an identity. */
      NotProvidedByClient
  {
    function ToString(): (s: string)
      ensures IsToken(s) && s != "true"
    {
      match this
      case Loopback => "loopback"
      case NoAuthorityInHttpRequest => "no_authority_in_http_request"
      case NotHttp => "not_http"
      case NotProvidedByServiceDiscovery => "not_provided_by_service_discovery"
      case NotProvidedByClient => "not_provided_by_client"
    }
  }

  /** Why a connection has no identity: TLS is off, or the peer has none. */
  datatype ReasonForNoIdentity = Disabled | NoPeerIdentity(peer: ReasonForNoPeerIdentity) {
    function ToString(): (s: string)
      ensures IsToken(s) && s != "true"
      ensures NoPeerIdentity? ==> s == peer.ToString()
    {
      match this
      case Disabled => "disabled"
      case NoPeerIdentity(r) => r.ToString()
    }
  }

  type Status = Conditional<(), ReasonForNoIdentity>

  type IdentityStatus<T> = Conditional<T, ReasonForNoIdentity>

  type PeerIdentity = Conditional<Identity.Name, ReasonForNoPeerIdentity>

  /** A connection's identity snapshot: its own name and what is known of its peer. */
  datatype IdentityState = IdentityState(serverIdentity: Identity.Name, clientIdentity: PeerIdentity)

  /** "true" when TLS is established, otherwise the reason's token. */
  function StatusToString(st: Status): (s: string)
    ensures st.Some? <==> s == "true"
    ensures st.None? ==> s == st.reason.ToString()
  {
    match st
    case Some(_) => "true"
    case None(r) => r.ToString()
  }

  /** The published token of every variant. */
  lemma Tokens()
    ensures Disabled.ToString() == "disabled"
    ensures Loopback.ToString() == "loopback"
    ensures NoAuthorityInHttpRequest.ToString() == "no_authority_in_http_request"
    ensures NotHttp.ToString() == "not_http"
    ensures NotProvidedByServiceDiscovery.ToString() == "not_provided_by_service_discovery"
    ensures NotProvidedByClient.ToString() == "not_provided_by_client"
  {
  }

  /** Distinct peer reasons render to distinct tokens. */
  lemma PeerReasonToStringInjective(a: ReasonForNoPeerIdentity, b: ReasonForNoPeerIdentity)
    ensures a.ToString() == b.ToString() ==> a == b
  {
  }

  /** Distinct reasons render to distinct tokens. */
  lemma ReasonToStringInjective(a: ReasonForNoIdentity, b: ReasonForNoIdentity)
    ensures a.ToString() == b.ToString() ==> a == b
  {
  }

  /** A rendered status determines the status. */
  lemma StatusToStringInjective(a: Status, b: Status)
    ensures StatusToString(a) == StatusToString(b) ==> a == b
  {
    if StatusToString(a) == StatusToString(b) {
      match (a, b)
      case (Some(u), Some(v)) => assert u == () == v;
      case (None(ra), None(rb)) => ReasonToStringInjective(ra, rb);
      case (Some(_), None(_)) =>
      case (None(_), Some(_)) =>
    }
  }
}
