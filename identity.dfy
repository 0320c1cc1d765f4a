/**
 * The endpoint identity of the proxy's mutual-TLS layer: signing requests,
 * names, keys, trust anchors, certificate chains, and the rules that decide
 * which certified key is presented during a handshake.
 *
 * Cryptographic and parsing primitives that live in other libraries (DNS
 * name syntax, PEM decoding, chain verification, end-entity certificate
 * checks, ECDSA signing) are passed in as function-typed parameters, so
 * every rule below holds for whatever those primitives decide.
 */
module Identity {
  import opened Wrappers

  newtype uint8 = x: int | 0 <= x < 0x100
  newtype uint16 = x: int | 0 <= x < 0x1_0000

  type Bytes = seq<uint8>

  /** ASCII '.', the DNS label separator. */
  const Dot: uint8 := 0x2E

  // ===== Signature schemes =====

  /** A TLS signature scheme, identified by its two-byte code point. */
  datatype SignatureScheme = SignatureScheme(code: uint16)

  /** ecdsa_secp256r1_sha256 (0x0403), the only scheme this identity can sign with. */
  const EcdsaNistp256Sha256: SignatureScheme := SignatureScheme(0x0403)

  /** The signature algorithm family reported to the TLS engine. */
  datatype SignatureAlgorithm = Anonymous | Rsa | Dsa | Ecdsa

  /** The TLS library's error, either a general message or another kind carried opaquely. */
  datatype TlsError = General(message: string) | Other(code: nat)

  /** The message every signing failure is reported with. */
  const SigningFailed: string := "Signing Failed"

  // ===== CSR =====

  /** A DER-encoded X.509 certificate signing request; never empty. */
  datatype CSR = CSR(der: Bytes) {

    static function FromDer(der: Bytes): (r: Option<CSR>)
      ensures r.None? <==> der == []
      ensures r.Some? ==> r.value.ToVec() == der && r.value.der != []
    {
      if der == [] then None else Some(CSR(der))
    }

    /** A copy of the request's bytes. */
    function ToVec(): Bytes {
      der
    }
  }

  // ===== Keys and signing =====

  /** A decoded ECDSA P-256 private key, held opaquely by its PKCS#8 encoding. */
  datatype EcdsaKeyPair = EcdsaKeyPair(pkcs8: Bytes)

  /** The error of the underlying ECDSA primitive, which carries no detail. */
  datatype Unspecified = Unspecified

  /**
   * The ECDSA primitive: signs a message with a key pair. As a function it
   * gives the same result for the same key and message; the fresh randomness
   * of every real signature is not represented.
   */
  type EcdsaSign = (EcdsaKeyPair, Bytes) -> Result<Bytes, Unspecified>

  /** An endpoint's private key. */
  datatype Key = Key(pair: EcdsaKeyPair)

  /** The signer handed to the TLS engine once a scheme has been agreed. */
  datatype Signer = Signer(pair: EcdsaKeyPair) {

    /**
     * Signs `message`. Any failure of the primitive becomes the one generic
     * error, so nothing about the cause reaches the peer.
     */
    function Sign(message: Bytes, ecdsaSign: EcdsaSign): (r: Result<Bytes, TlsError>)
      ensures r.Success? <==> ecdsaSign(pair, message).Success?
      ensures r.Success? ==> r.value == ecdsaSign(pair, message).value
      ensures r.Failure? ==> r.error == General(SigningFailed)
    {
      ecdsaSign(pair, message).MapError((_: Unspecified) => General(SigningFailed))
    }

    function GetScheme(): SignatureScheme {
      EcdsaNistp256Sha256
    }
  }

  /** The signing key bound into a certified key; it chooses a signer per handshake. */
  datatype SigningKey = SigningKey(pair: EcdsaKeyPair) {

    /** A signer exactly when the peer offers the one supported scheme. */
    function ChooseScheme(offered: seq<SignatureScheme>): (r: Option<Signer>)
      ensures r.Some? <==> EcdsaNistp256Sha256 in offered
      ensures r.Some? ==> r.value.pair == pair && r.value.GetScheme() in offered
    {
      if EcdsaNistp256Sha256 in offered then Some(Signer(pair)) else None
    }

    function Algorithm(): SignatureAlgorithm {
      Ecdsa
    }
  }

  /**
   * Whatever the peer offers, a signer that `ChooseScheme` hands out signs
   * with the key's own pair, announces ECDSA_NISTP256_SHA256, and belongs to
   * a key that reports the ECDSA algorithm.
   */
  lemma SchemeMatchesAlgorithm(k: SigningKey, offered: seq<SignatureScheme>)
    ensures k.ChooseScheme(offered).Some? ==>
              var s := k.ChooseScheme(offered).value;
              && s.pair == k.pair
              && s.GetScheme() == EcdsaNistp256Sha256
              && s.GetScheme() in offered
              && k.Algorithm() == Ecdsa
  {
  }

  // ===== Name =====

  /** A syntactically valid DNS name, as the external DNS constructor builds it; held opaquely. */
  datatype DnsName = DnsName(text: Bytes)

  datatype InvalidName = InvalidName

  /** True when the last byte of `s` is the label separator. */
  predicate EndsWithDot(s: Bytes) {
    |s| > 0 && s[|s| - 1] == Dot
  }

  /** The external DNS name constructor, which validates and may normalise its input. */
  type DnsTryFrom = Bytes -> Result<DnsName, InvalidName>

  /** An endpoint's identity. */
  datatype Name = Name(dns: DnsName) {

    /**
     * Builds a name from an SNI host name. SNI names are implicitly absolute,
     * so a trailing separator is rejected before the DNS validator is asked.
     */
    static function FromSniHostname(hostname: Bytes, dnsTryFrom: DnsTryFrom): (r: Result<Name, InvalidName>)
      ensures EndsWithDot(hostname) ==> r == Failure(InvalidName)
      ensures !EndsWithDot(hostname) ==> (r.Success? <==> dnsTryFrom(hostname).Success?)
      ensures r.Success? ==> r.value.AsDnsNameRef() == dnsTryFrom(hostname).value
    {
      if EndsWithDot(hostname) then
        Failure(InvalidName)
      else
        dnsTryFrom(hostname).MapValue((n: DnsName) => Name(n))
    }

    function AsDnsNameRef(): DnsName {
      dns
    }

    function AsRef(): Bytes {
      dns.text
    }
  }

  /** Whatever precedes it, a host name ending in '.' is refused, even by a validator that accepts everything. */
  lemma TrailingDotRejected(prefix: Bytes, dnsTryFrom: DnsTryFrom)
    ensures Name.FromSniHostname(prefix + [Dot], dnsTryFrom) == Failure(InvalidName)
  {
  }

  // ===== Certificates =====

  /** A DER-encoded certificate. */
  datatype Certificate = Certificate(der: Bytes)

  /** An instant, carried as an opaque value. */
  datatype SystemTime = SystemTime(sinceEpoch: int)

  /** An unvalidated identity: a name, a chain (leaf first) and its expiry. */
  datatype Crt = Crt(name: Name, expiry: SystemTime, chain: seq<Certificate>) {

    /** Assembles the chain by pushing the leaf and then extending with the intermediates, in order. */
    static method New(name: Name, leaf: Bytes, intermediates: seq<Bytes>, expiry: SystemTime) returns (crt: Crt)
      ensures crt.name == name && crt.expiry == expiry
      ensures |crt.chain| == |intermediates| + 1
      ensures crt.chain[0] == Certificate(leaf)
      ensures forall i :: 0 <= i < |intermediates| ==> crt.chain[i + 1] == Certificate(intermediates[i])
    {
      var chain: seq<Certificate> := [];
      chain := chain + [Certificate(leaf)];
      for i := 0 to |intermediates|
        invariant |chain| == i + 1
        invariant chain[0] == Certificate(leaf)
        invariant forall j :: 0 <= j < i ==> chain[j + 1] == Certificate(intermediates[j])
      {
        chain := chain + [Certificate(intermediates[i])];
      }
      crt := Crt(name, expiry, chain);
    }
  }

  /** The TLS library's certified key: a chain and the key that signs for it. */
  datatype CertifiedKey = CertifiedKey(cert: seq<Certificate>, key: SigningKey)

  /** A validation failure, wrapping the verifier's diagnostic. */
  datatype InvalidCrt = InvalidCrt(cause: TlsError)

  /** A parsed end-entity certificate, held opaquely. */
  datatype EndEntityCert = EndEntityCert(der: Bytes)

  /** The external end-entity certificate parser. */
  type ParseEndEntity = Bytes -> Option<EndEntityCert>

  /** The external check that a parsed certificate is valid for a DNS name. */
  type ValidForDnsName = (EndEntityCert, DnsName) -> bool

  /** A certified, signing-capable identity. */
  datatype CrtKey = CrtKey(name: Name, expiry: SystemTime, key: CertifiedKey) {

    /** The stored key, exactly when the supported scheme is offered. */
    function ResolveBySchemes(sigschemes: seq<SignatureScheme>): (r: Option<CertifiedKey>)
      ensures r.Some? <==> EcdsaNistp256Sha256 in sigschemes
      ensures r.Some? ==> r.value == key
    {
      if EcdsaNistp256Sha256 !in sigschemes then None else Some(key)
    }

    /** Client role: the acceptable issuers are not consulted. */
    function ResolveClient(acceptableIssuers: seq<Bytes>, sigschemes: seq<SignatureScheme>): (r: Option<CertifiedKey>)
      ensures r.Some? <==> EcdsaNistp256Sha256 in sigschemes
      ensures r.Some? ==> r.value == key
    {
      ResolveBySchemes(sigschemes)
    }

    function HasCerts(): (b: bool)
      ensures b
    {
      true
    }

    /** The first certificate of the stored chain, or empty bytes when the chain is empty. */
    function Leaf(): Bytes {
      if key.cert == [] then [] else key.cert[0].der
    }

    /** The stored leaf parses as an end-entity certificate that is valid for `n`. */
    predicate LeafValidFor(n: DnsName, parse: ParseEndEntity, valid: ValidForDnsName) {
      parse(Leaf()).Some? && valid(parse(Leaf()).value, n)
    }

    /**
     * Server role: no SNI gives no certificate; otherwise the leaf is
     * re-checked against the SNI name and any failure gives no certificate;
     * only then is the scheme gate applied.
     */
    function ResolveServer(serverName: Option<DnsName>, sigschemes: seq<SignatureScheme>,
                           parse: ParseEndEntity, valid: ValidForDnsName): (r: Option<CertifiedKey>)
      ensures r.Some? <==> serverName.Some? && LeafValidFor(serverName.value, parse, valid)
                           && EcdsaNistp256Sha256 in sigschemes
      ensures r.Some? ==> r.value == key
    {
      if serverName.None? then
        None
      else if !LeafValidFor(serverName.value, parse, valid) then
        None
      else
        ResolveBySchemes(sigschemes)
    }
  }

  /** The client-role result depends only on the offered schemes. */
  lemma ClientIgnoresIssuers(k: CrtKey, a: seq<Bytes>, b: seq<Bytes>, sigschemes: seq<SignatureScheme>)
    ensures k.ResolveClient(a, sigschemes) == k.ResolveClient(b, sigschemes) == k.ResolveBySchemes(sigschemes)
  {
  }

  /** The server role never presents a key that the client role would withhold for the same schemes. */
  lemma ServerImpliesClient(k: CrtKey, serverName: Option<DnsName>, sigschemes: seq<SignatureScheme>,
                            issuers: seq<Bytes>, parse: ParseEndEntity, valid: ValidForDnsName)
    ensures k.ResolveServer(serverName, sigschemes, parse, valid).Some? ==>
              k.ResolveServer(serverName, sigschemes, parse, valid) == k.ResolveClient(issuers, sigschemes)
    ensures k.ResolveClient(issuers, sigschemes).None? ==> k.ResolveServer(serverName, sigschemes, parse, valid).None?
  {
  }

  /** With an empty chain, and a parser that rejects empty input, the server role never presents a key. */
  lemma EmptyChainNoCert(k: CrtKey, serverName: Option<DnsName>, sigschemes: seq<SignatureScheme>,
                         parse: ParseEndEntity, valid: ValidForDnsName)
    requires k.key.cert == [] && parse([]).None?
    ensures k.ResolveServer(serverName, sigschemes, parse, valid).None?
  {
  }

  // ===== Trust anchors =====

  /** A root certificate accepted as a basis for chain validation, held opaquely. */
  datatype TrustAnchor = TrustAnchor(der: Bytes)

  /** What the PEM reader makes of a bundle: the anchors it parsed and how many entries it skipped. */
  datatype PemContents = PemContents(parsed: seq<TrustAnchor>, skipped: nat)

  /** The external PEM reader; `Failure` when the bundle itself cannot be read. */
  type ReadPem = string -> Result<PemContents, ()>

  /** The external server-certificate verifier: anchors, chain (leaf first), name, OCSP response. */
  type ServerCertVerifier = (seq<TrustAnchor>, seq<Certificate>, DnsName, Bytes) -> Result<(), TlsError>

  /** The external client-certificate verifier: anchors and chain (leaf first). */
  type ClientCertVerifier = (seq<TrustAnchor>, seq<Certificate>) -> Result<(), TlsError>

  /** The TLS library's mutable root store, filled from a PEM bundle. */
  class RootCertStore {
    var roots: seq<TrustAnchor>

    constructor Empty()
      ensures roots == []
    {
      roots := [];
    }

    /** Adds every anchor the reader parsed and reports how many were added and skipped. */
    method AddPemFile(pem: string, readPem: ReadPem) returns (r: Result<(nat, nat), ()>)
      modifies this
      ensures readPem(pem).Failure? ==> r.Failure? && roots == old(roots)
      ensures readPem(pem).Success? ==>
                var contents := readPem(pem).value;
                && r == Success((|contents.parsed|, contents.skipped))
                && roots == old(roots) + contents.parsed
    {
      var contents := readPem(pem);
      if contents.Failure? {
        return Failure(());
      }
      roots := roots + contents.value.parsed;
      r := Success((|contents.value.parsed|, contents.value.skipped));
    }
  }

  /** An immutable, non-empty set of trust anchors. */
  datatype TrustAnchors = TrustAnchors(roots: seq<TrustAnchor>) {

    /**
     * Reads a PEM bundle into a fresh store. Fails when the bundle cannot be
     * read or when no anchor was added; skipped entries alone never fail it.
     */
    static method FromPem(s: string, readPem: ReadPem) returns (r: Option<TrustAnchors>)
      ensures r.None? <==> readPem(s).Failure? || readPem(s).value.parsed == []
      ensures r.Some? ==> r.value.roots == readPem(s).value.parsed && |r.value.roots| > 0
    {
      var roots := new RootCertStore.Empty();
      var added := roots.AddPemFile(s, readPem);
      if added.Failure? {
        return None;
      }
      var (count, _) := added.value;
      if count == 0 {
        return None;
      }
      r := Some(TrustAnchors(roots.roots));
    }

    /**
     * Validates the chain for the certificate's name with the server-role
     * verifier and no OCSP response, and on success binds name, expiry and
     * the unchanged chain to the key.
     */
    function Certify(key: Key, crt: Crt, verifier: ServerCertVerifier): (r: Result<CrtKey, InvalidCrt>)
      ensures r.Failure? <==> verifier(roots, crt.chain, crt.name.AsDnsNameRef(), []).Failure?
      ensures r.Failure? ==> r.error == InvalidCrt(verifier(roots, crt.chain, crt.name.AsDnsNameRef(), []).error)
      ensures r.Success? ==> r.value.name == crt.name && r.value.expiry == crt.expiry
                             && r.value.key == CertifiedKey(crt.chain, SigningKey(key.pair))
    {
      match verifier(roots, crt.chain, crt.name.AsDnsNameRef(), [])
      case Failure(e) => Failure(InvalidCrt(e))
      case Success(_) =>
        Success(CrtKey(crt.name, crt.expiry, CertifiedKey(crt.chain, SigningKey(key.pair))))
    }
  }

  /**
   * A property of the external primitives, not of this code: a chain the
   * server-certificate verifier accepts for a name has a leaf that parses as
   * an end-entity certificate and is valid for that name.
   */
  ghost predicate VerifierChecksLeafName(verifier: ServerCertVerifier, parse: ParseEndEntity, valid: ValidForDnsName) {
    forall anchors: seq<TrustAnchor>, chain: seq<Certificate>, n: DnsName ::
      verifier(anchors, chain, n, []).Success? ==>
        chain != [] && parse(chain[0].der).Some? && valid(parse(chain[0].der).value, n)
  }

  /**
   * When the primitives have that property, a certified key is presented in the server role
   * for its own certified name whenever the supported scheme is offered.
   */
  lemma CertifiedResolvesOwnName(anchors: TrustAnchors, key: Key, crt: Crt, sigschemes: seq<SignatureScheme>,
                                 verifier: ServerCertVerifier, parse: ParseEndEntity, valid: ValidForDnsName)
    requires VerifierChecksLeafName(verifier, parse, valid)
    requires anchors.Certify(key, crt, verifier).Success?
    requires EcdsaNistp256Sha256 in sigschemes
    ensures var k := anchors.Certify(key, crt, verifier).value;
            k.ResolveServer(Some(crt.name.AsDnsNameRef()), sigschemes, parse, valid) == Some(k.key)
  {
  }

  /**
   * The assumption `certify` states for itself: server-certificate validation
   * does at least what client-certificate validation does, so a chain the
   * server verifier accepts for any name is one the client verifier accepts.
   */
  ghost predicate ServerAtLeastAsStrict(server: ServerCertVerifier, client: ClientCertVerifier) {
    forall anchors: seq<TrustAnchor>, chain: seq<Certificate>, n: DnsName ::
      server(anchors, chain, n, []).Success? ==> client(anchors, chain).Success?
  }

  /**
   * Under that assumption, the chain bound into every certified key is one
   * the client-certificate verifier accepts against the same anchors, which
   * is what a peer that authenticates this proxy as a client will check.
   */
  lemma CertifiedChainPassesClientVerification(anchors: TrustAnchors, key: Key, crt: Crt,
                                               server: ServerCertVerifier, client: ClientCertVerifier)
    requires ServerAtLeastAsStrict(server, client)
    requires anchors.Certify(key, crt, server).Success?
    ensures client(anchors.roots, anchors.Certify(key, crt, server).value.key.cert).Success?
  {
  }
}
