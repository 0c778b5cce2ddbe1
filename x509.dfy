/**
 * The parts of Go's crypto/x509, crypto/ecdsa and crypto/rsa that the
 * certificate helpers touch: the certificate record, the key families, the
 * error values, and the library calls themselves. The calls (key
 * generation, certificate creation, parsing, key marshalling) are not
 * modelled: they are the fields of a `Library` value, total functions that
 * may fail, and every operation of the helpers takes that value as an
 * argument. Hypotheses about the library are ghost predicates that lemmas
 * require.
 */
module X509 {
  import opened Wrappers
  import opened Calendar

  type Bytes = seq<bv8>

  /** `x509.KeyUsage`, a Go `int` used as a bit set. */
  type KeyUsage = bv64

  const KeyUsageDigitalSignature: KeyUsage := 1
  const KeyUsageKeyEncipherment: KeyUsage := 4
  const KeyUsageCertSign: KeyUsage := 32

  /** `x509.ExtKeyUsage`; the helpers only ever request "any purpose". */
  datatype ExtKeyUsage = ExtKeyUsageAny

  /** `x509.SignatureAlgorithm`; the zero value is the unknown algorithm. */
  datatype SignatureAlgorithm = UnknownSignatureAlgorithm | SHA256WithRSA | ECDSAWithSHA256

  /** The named curves of crypto/elliptic that the helpers can select. */
  datatype Curve = P224 | P256 | P384 | P521

  /** A generated RSA private key; `material` stands for the secret numbers. */
  datatype RsaPrivateKey = RsaPrivateKey(bits: int, material: Bytes)

  /** A generated ECDSA private key on a named curve. */
  datatype EcPrivateKey = EcPrivateKey(curve: Curve, material: Bytes)

  /**
   * A value of Go's empty interface handed in as an issuer key: one of the
   * two key families the helpers recognise, or anything else (nil included),
   * described by what `%v` prints for it.
   */
  datatype PrivateKey = RsaKey(rsa: RsaPrivateKey) | EcKey(ec: EcPrivateKey) | OtherKey(description: string)

  /** A key that `x509.CreateCertificate` is given to sign with. */
  datatype Signer = RsaSigner(rsa: RsaPrivateKey) | EcSigner(ec: EcPrivateKey)

  /** The public half of a private key, `privKey.Public()`. */
  datatype PublicKey = RsaPublic(ofRsa: RsaPrivateKey) | EcPublic(ofEc: EcPrivateKey)

  /** `pkix.Name`, restricted to the attributes the helpers set. */
  datatype Name = Name(
    commonName: string,
    country: seq<string>,
    organization: seq<string>,
    organizationalUnit: seq<string>,
    serialNumber: string)

  /** The zero `pkix.Name`. */
  const EmptyName := Name("", [], [], [], "")

  /**
   * `x509.Certificate`, restricted to the fields the helpers set or read.
   * Go uses the same record for an unsigned template (no raw bytes, no
   * issuer, no public key) and for a parsed certificate.
   */
  datatype Certificate = Certificate(
    raw: Bytes,
    subject: Name,
    issuer: Name,
    notBefore: Time,
    notAfter: Time,
    isCA: bool,
    basicConstraintsValid: bool,
    keyUsage: KeyUsage,
    extKeyUsage: seq<ExtKeyUsage>,
    maxPathLen: int,
    maxPathLenZero: bool,
    signatureAlgorithm: SignatureAlgorithm,
    serialNumber: int,
    publicKey: Option<PublicKey>)

  /** The error values the helpers return; library errors are passed on unchanged. */
  datatype Error =
    | UnsupportedAlgorithm(algo: string)
    | InvalidSerialNumber(serial: string)
    | InvalidIssuerKey(description: string)
    | EcKeyMarshal(cause: Error)
    | UnknownKeyType(description: string)
    | PathExists(path: string)
    | LibraryFailure(detail: string)

  /**
   * The foreign calls, each a function that may fail:
   * `ecdsa.GenerateKey`, `rsa.GenerateKey`, `x509.CreateCertificate`
   * (template, parent, subject public key, signing key),
   * `x509.ParseCertificate`, `x509.MarshalPKCS1PrivateKey` and
   * `x509.MarshalECPrivateKey`.
   */
  datatype Library = Library(
    generateEc: Curve -> Result<EcPrivateKey, Error>,
    generateRsa: int -> Result<RsaPrivateKey, Error>,
    createCertificate: (Certificate, Certificate, PublicKey, Signer) -> Result<Bytes, Error>,
    parseCertificate: Bytes -> Result<Certificate, Error>,
    marshalPkcs1: RsaPrivateKey -> Bytes,
    marshalEc: EcPrivateKey -> Result<Bytes, Error>)

  /**
   * The type switch on an issuer key given as `interface{}`: an RSA or an
   * ECDSA key becomes the signing key, anything else is refused.
   */
  function IssuerSigner(k: PrivateKey): (s: Option<Signer>)
    ensures s.None? <==> k.OtherKey?
    ensures k.RsaKey? ==> s == Some(RsaSigner(k.rsa))
    ensures k.EcKey? ==> s == Some(EcSigner(k.ec))
  {
    match k
    case RsaKey(r) => Some(RsaSigner(r))
    case EcKey(e) => Some(EcSigner(e))
    case OtherKey(_) => None
  }

  /** Create the DER bytes of a certificate, then parse them back; the first error wins. */
  function CreateAndParse(lib: Library, tmpl: Certificate, parent: Certificate, pub: PublicKey, signer: Signer)
    : Result<Certificate, Error>
  {
    match lib.createCertificate(tmpl, parent, pub, signer)
    case Failure(e) => Failure(e)
    case Success(der) => lib.parseCertificate(der)
  }

  /**
   * What a successful signing of `tmpl` under `parent` should give back: the
   * template's own fields, the parent's subject as issuer, and the subject's
   * public key embedded.
   */
  predicate Reproduces(cert: Certificate, tmpl: Certificate, parent: Certificate, pub: PublicKey) {
    cert.(raw := []) == tmpl.(raw := [], issuer := parent.subject, publicKey := Some(pub))
  }

  /**
   * Hypothesis on the library that the helpers' own tests rely on: parsing
   * freshly created bytes reproduces the template.
   */
  ghost predicate ParseReproduces(lib: Library) {
    forall tmpl, parent, pub, signer ::
      CreateAndParse(lib, tmpl, parent, pub, signer).Success? ==>
        Reproduces(CreateAndParse(lib, tmpl, parent, pub, signer).value, tmpl, parent, pub)
  }

  /** Hypothesis on the library: key generation honours the requested curve and size. */
  ghost predicate GeneratesRequested(lib: Library) {
    && (forall c :: lib.generateEc(c).Success? ==> lib.generateEc(c).value.curve == c)
    && (forall bits :: lib.generateRsa(bits).Success? ==> lib.generateRsa(bits).value.bits == bits)
  }

  /** Go's `(cert, key, err)` triple as the issuance helpers return it. */
  datatype Issued<K> = Issued(cert: Option<Certificate>, key: Option<K>, err: Option<Error>)

  /** Either a certificate and a key and no error, or nothing but an error. */
  predicate AllOrNothing<K>(r: Issued<K>) {
    || (r.cert.Some? && r.key.Some? && r.err.None?)
    || (r.cert.None? && r.key.None? && r.err.Some?)
  }

  /** `return nil, nil, err` */
  function Fail<K>(e: Error): Issued<K> {
    Issued(None, None, Some(e))
  }

  /** `return certParsed, privKey, nil` */
  function Done<K>(cert: Certificate, key: K): Issued<K> {
    Issued(Some(cert), Some(key), None)
  }
}
