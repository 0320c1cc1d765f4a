# Mutual-TLS identity of the linkerd2 proxy, in Dafny

This project models the identity layer of the linkerd2 proxy's mutual TLS and
proves its decision rules. It covers two parts.

- **Identity values and certificate resolution** (`Identity`, `identity.dfy`).
  It models certificate signing requests, names built from SNI host names,
  keys and the scheme-gated signer, the trust-anchor store filled from a PEM
  bundle, certification of a chain against the anchors, assembly of a chain
  (leaf first, then intermediates), and the client-role and server-role
  resolvers the TLS engine calls during a handshake.
- **Identity status taxonomy** (`Tls`, `tls.dfy`). It models the two closed
  reason enums, the `Conditional`-shaped aliases `Status`, `IdentityStatus`
  and `PeerIdentity`, the `IdentityState` record, and the fixed tokens the
  reasons and statuses render to.

`Wrappers` (`wrappers.dfy`) holds the `Option` and `Result` datatypes.

The cryptographic and parsing primitives of other libraries are not modelled.
Each becomes a function-typed parameter, so every property holds for any
behaviour of the primitive:

- The DNS name constructor (`dns::Name::try_from`) is `DnsTryFrom`. It
  either builds a DNS name, which it may normalise, or rejects the bytes.
- The PEM reader behind `add_pem_file` is `ReadPem`. It yields the anchors it
  parsed and the number of entries it skipped, or fails outright.
- The rustls server-certificate verifier is `ServerCertVerifier`. It takes the
  anchors, the chain, the DNS name and the OCSP response.
- The webpki end-entity parser and its name check are `ParseEndEntity` and
  `ValidForDnsName`.
- The ring ECDSA signer is `EcdsaSign`. As a function it gives the same
  result for the same key and message, so the fresh randomness of each real
  signature is not represented.
- The rustls client-certificate verifier is `ClientCertVerifier`. It takes
  the anchors and the chain.

`Crt.New` is imperative, as in the source: it pushes the leaf and then extends
with the intermediates in a loop. `RootCertStore` is a class whose
`AddPemFile` method changes the stored roots. `TrustAnchors.FromPem` builds a
fresh store and reads the bundle into it. Everything else is a pure function.

`certify` validates with the server-certificate verifier, and its comment
(src/identity/mod.rs:198-200) assumes that this does at least what
client-certificate validation does. `ServerAtLeastAsStrict` names that
assumption. Under it, `CertifiedChainPassesClientVerification` proves that
every certified chain passes the client verifier against the same anchors.

`VerifierChecksLeafName` is a property of the external primitives: a chain the
server verifier accepts for a name has a leaf that parses and is valid for that
name. Under it, `CertifiedResolvesOwnName` proves that a certified key is
presented in the server role for its own name whenever the supported scheme is
offered.

Several accessors carry no contract of their own; the rows that use them
specify them.

- `CSR.ToVec` (src/identity/mod.rs:75-77) is specified by the `CSR.FromDer` row.
- `Signer.GetScheme` (src/identity/mod.rs:118-120) and `SigningKey.Algorithm`
  (src/identity/mod.rs:102-104) are specified by the
  `SchemeMatchesAlgorithm` row.
- `Name.AsDnsNameRef` (src/identity/mod.rs:140-142) is specified by the
  `Name.FromSniHostname` and `TrustAnchors.Certify` rows.
- `Name.AsRef` (src/identity/mod.rs:145-149) gives the DNS name's bytes and
  has no row.

The `Conditional` type lives at the crate root, outside the two modules
modelled here. It is written here as `Tls.Conditional`, with constructors
`Some` and `None` that carry a value or a reason.

## Model

| member | source | states |
|---|---|---|
| `Identity.CSR.FromDer` | src/identity/mod.rs:67-77 | none exactly when the input is empty; otherwise `ToVec` gives back the input byte for byte, and the request is non-empty |
| `Identity.SigningKey.ChooseScheme` | src/identity/mod.rs:90-100 | a signer exactly when ECDSA_NISTP256_SHA256 is offered; that signer uses the same key pair and announces a scheme that was offered |
| `Identity.SchemeMatchesAlgorithm` | src/identity/mod.rs:56-62 | for every offered list, a signer that `ChooseScheme` returns signs with the key's own pair, announces ECDSA_NISTP256_SHA256 (a scheme that was offered), and belongs to a key that reports ECDSA |
| `Identity.Signer.Sign` | src/identity/mod.rs:108-116 | succeeds exactly when the ECDSA primitive does, returning its signature; every failure becomes the one error `General("Signing Failed")`, whatever the cause |
| `Identity.Name.FromSniHostname` | src/identity/mod.rs:132-138 | a host name ending in '.' is rejected; otherwise it succeeds exactly when the DNS constructor does, and the name wraps exactly the DNS name that constructor built |
| `Identity.TrailingDotRejected` | src/identity/mod.rs:133-135 | any host name whose last byte is '.' is rejected, whatever precedes it and whatever the DNS constructor would say |
| `Identity.Crt.New` | src/identity/mod.rs:228-238 | the chain has one more entry than the intermediates, holds the leaf first and then every intermediate in order; name and expiry are kept |
| `Identity.RootCertStore.Empty` | src/identity/mod.rs:185 | a new store holds no roots |
| `Identity.RootCertStore.AddPemFile` | src/identity/mod.rs:186 | when the bundle cannot be read it fails and the store is unchanged; otherwise the parsed anchors are appended and the result is (added, skipped) |
| `Identity.TrustAnchors.FromPem` | src/identity/mod.rs:182-195 | none exactly when the reader fails or adds no anchor, whatever the skipped count; otherwise the anchors are exactly those parsed, and there is at least one |
| `Identity.TrustAnchors.Certify` | src/identity/mod.rs:197-222 | fails exactly when the verifier rejects (anchors, chain, name, empty OCSP), wrapping its error; on success the key has the certificate's name, expiry and exact chain, bound to the given key pair |
| `Identity.CrtKey.ResolveBySchemes` | src/identity/mod.rs:244-254 | the stored certified key, unchanged, exactly when ECDSA_NISTP256_SHA256 is offered |
| `Identity.CrtKey.ResolveClient` | src/identity/mod.rs:257-266 | the stored key exactly when the supported scheme is offered, whatever the acceptable issuers |
| `Identity.CrtKey.HasCerts` | src/identity/mod.rs:268-270 | always true |
| `Identity.ClientIgnoresIssuers` | src/identity/mod.rs:258-266 | two client-role calls that differ only in the acceptable issuers agree, and both equal the scheme-gated resolve |
| `Identity.CrtKey.ResolveServer` | src/identity/mod.rs:273-302 | the stored key exactly when an SNI name is present, the first chain entry (empty bytes for an empty chain) parses and is valid for that name, and the supported scheme is offered; otherwise none |
| `Identity.ServerImpliesClient` | src/identity/mod.rs:273-302 | a server-role key is the client-role result for the same schemes; where the client role gives none, so does the server role |
| `Identity.EmptyChainNoCert` | src/identity/mod.rs:286-290 | with an empty chain and a parser that refuses empty input, the server role presents nothing |
| `Identity.CertifiedResolvesOwnName` | src/identity/mod.rs:197-222 | if the verifier only accepts chains whose leaf is valid for the name, a successfully certified key is presented in the server role for its own name whenever the supported scheme is offered |
| `Identity.CertifiedChainPassesClientVerification` | src/identity/mod.rs:198-214 | if server-certificate validation accepts only chains that client-certificate validation accepts, every chain bound into a certified key passes the client verifier against the same anchors |
| `Tls.ReasonForNoPeerIdentity.ToString` | src/transport/tls/mod.rs:109-123 | every peer reason renders to a non-empty token of lower-case letters and underscores, never "true" |
| `Tls.ReasonForNoIdentity.ToString` | src/transport/tls/mod.rs:100-107 | every reason renders to such a token, never "true"; `NoPeerIdentity(r)` renders exactly as `r` does |
| `Tls.StatusToString` | src/transport/tls/mod.rs:31-38 | "true" exactly for `Some(())`; for `None(r)` the token of `r` |
| `Tls.Tokens` | src/transport/tls/mod.rs:100-123 | the six published tokens: disabled, loopback, no_authority_in_http_request, not_http, not_provided_by_service_discovery, not_provided_by_client |
| `Tls.PeerReasonToStringInjective` | src/transport/tls/mod.rs:109-123 | distinct peer reasons render to distinct tokens |
| `Tls.ReasonToStringInjective` | src/transport/tls/mod.rs:100-123 | distinct reasons, across both enums, render to distinct tokens |
| `Tls.StatusToStringInjective` | src/transport/tls/mod.rs:31-38 | a rendered status determines the status |

## Left out

- `Key::from_pkcs8` (src/identity/mod.rs:83-87): PKCS#8 decoding of an ECDSA key is foreign cryptography. Keys enter the model already decoded.
- Identity.Signer.Sign: the ECDSA primitive is a deterministic parameter, so the model does not capture that every call draws fresh randomness.
- Identity.Name.FromSniHostname: does not promise that a built name's text equals the host name or never ends in '.'. The DNS constructor is an uninterpreted parameter and may normalise its input.
- Identity.SchemeMatchesAlgorithm: covers only the rustls scheme and algorithm constants (src/identity/mod.rs:59-62). The ring signing algorithm `ECDSA_P256_SHA256_ASN1_SIGNING` (src/identity/mod.rs:57-58) has no counterpart, because key decoding and signing are external. So the model does not show that the key actually signs with the announced scheme.
- `TokenSource::if_nonempty_file` and `load` (src/identity/mod.rs:159-177): filesystem I/O.
- The `Debug` and `AsRef<str>` impls of `Name` and the `Display`/`Error` impls of `InvalidCrt`: formatting that delegates to the wrapped library values. `Name.AsRef` yields the name's bytes rather than a `str`.
- The `warn!`/`debug!` logging, `Arc` sharing, and the meaning of `SystemTime`: expiry is carried as an opaque value and never compared.
- The `ocsp` and `sct_list` fields of rustls's `CertifiedKey`, which `CertifiedKey::new` always leaves empty.
- The internals of the DNS name syntax check, the PEM reader, the rustls verifier, webpki's end-entity parsing and name check, and ring's ECDSA signing; each is a parameter.
- The `HasStatus`, `HasIdentity` and `HasPeerIdentity` traits (src/transport/tls/mod.rs:27-29, 92-98): interfaces with no behaviour here.
- The `client`, `listen`, `connection`, `io` and `conditional_accept` submodules and the tokio-rustls acceptor and connector: socket and asynchronous I/O, not part of this model.
