/**
 * The elliptic-curve helpers of certhelper/ec.go: curve selection by name,
 * the self-signed EC root and the EC leaf signed by any RSA or ECDSA
 * issuer. Each pipeline generates the key, builds the template, signs it
 * and parses the result, returning at the first error.
 */
module EC {
  import opened Wrappers
  import opened Strings
  import opened Calendar
  import opened X509
  import opened Constants
  import opened Template

  /** The canonical name of a curve. */
  function CurveName(c: Curve): string {
    match c
    case P224 => "P224"
    case P256 => "P256"
    case P384 => "P384"
    case P521 => "P521"
  }

  /**
   * The switch in `ECKeys`: the upper-cased name picks P256, P384 or P521;
   * every other name, "P224" and the empty string included, falls back to
   * P224.
   */
  function CurveFor(name: string): (c: Curve)
    ensures c != P224 ==> CurveName(c) == Upper(name)
    ensures c == P224 <==>
              Upper(name) != CurveName(P256) && Upper(name) != CurveName(P384) && Upper(name) != CurveName(P521)
  {
    match Upper(name)
    case "P256" => P256
    case "P384" => P384
    case "P521" => P521
    case _ => P224
  }

  /** Every curve is selected by its own name, in any case. */
  lemma CurveForName(c: Curve, name: string)
    requires Upper(name) == CurveName(c)
    ensures CurveFor(name) == c
  {
  }

  /** Upper-casing the name first selects the same curve. */
  lemma CurveForCaseInsensitive(name: string)
    ensures CurveFor(Upper(name)) == CurveFor(name)
  {
    UpperIdempotent(name);
  }

  /** The curve names exercised by the package's tests select their curve. */
  lemma CurveForNamedExamples()
    ensures CurveFor("P224") == P224
    ensures CurveFor("P256") == P256
    ensures CurveFor("P384") == P384
    ensures CurveFor("P521") == P521
    ensures CurveFor("p521") == P521
  {
    UpperOfUpperCase("P224");
    UpperOfUpperCase("P256");
    UpperOfUpperCase("P384");
    UpperOfUpperCase("P521");
    assert Upper("p521") == "P521" by {
      assert Upper("p521")[0] == 'P';
    }
  }

  /** Names that are not curves, as the package's tests use them, fall back to P224. */
  lemma CurveForFallbackExamples()
    ensures CurveFor("P123") == P224
    ensures CurveFor("P512") == P224
    ensures CurveFor("yolo") == P224
    ensures CurveFor("") == P224
  {
    UpperOfUpperCase("P123");
    UpperOfUpperCase("P512");
    assert Upper("yolo")[0] == 'Y';
  }

  /**
   * `ECKeys`: generate a key on the selected curve and return the
   * generator's key or error unchanged. The name itself is never an error:
   * the call fails exactly when generation on the selected curve fails, and
   * with a library that honours the requested curve the key is
   * on that curve.
   */
  function ECKeys(lib: Library, curve: string): (r: Result<EcPrivateKey, Error>)
    ensures r == lib.generateEc(CurveFor(curve))
    ensures r.Failure? <==> lib.generateEc(CurveFor(curve)).Failure?
    ensures GeneratesRequested(lib) && r.Success? ==> r.value.curve == CurveFor(curve)
  {
    lib.generateEc(CurveFor(curve))
  }

  /**
   * `CustomECRootCA`: a self-signed CA. The key is generated first, so its
   * error takes precedence over a template error; the template is always
   * built with the label "EC"; the certificate is created with the template
   * as its own parent, the new key's public half as subject key and the new
   * key as signer.
   */
  function CustomECRootCA(lib: Library, now: Time, commonName: string, orgUnit: string, serialNumber: string,
                          countryCode: string, curve: string, validity: int, maxPathLen: int,
                          keyUsage: KeyUsage): (r: Issued<EcPrivateKey>)
    ensures AllOrNothing(r)
    ensures ECKeys(lib, curve).Failure? ==> r == Fail(ECKeys(lib, curve).error)
    ensures ECKeys(lib, curve).Success? ==>
              var tmpl := CustomCATemplate(now, commonName, orgUnit, serialNumber, countryCode, "EC", validity,
                                           maxPathLen, keyUsage);
              && (tmpl.Failure? ==> r == Fail(tmpl.error))
              && (r.err.None? ==>
                    && tmpl.Success?
                    && r.key == Some(ECKeys(lib, curve).value)
                    && CreateAndParse(lib, tmpl.value, tmpl.value, EcPublic(r.key.value), EcSigner(r.key.value))
                       == Success(r.cert.value))
    ensures ECKeys(lib, curve).Success? ==>
              var key := ECKeys(lib, curve).value;
              var tmpl := CustomCATemplate(now, commonName, orgUnit, serialNumber, countryCode, "EC", validity,
                                           maxPathLen, keyUsage);
              tmpl.Success? ==>
                var created := CreateAndParse(lib, tmpl.value, tmpl.value, EcPublic(key), EcSigner(key));
                && (created.Failure? ==> r == Fail(created.error))
                && (created.Success? ==> r == Done(created.value, key))
  {
    match ECKeys(lib, curve)
    case Failure(e) => Fail(e)
    case Success(privKey) =>
      match CustomCATemplate(now, commonName, orgUnit, serialNumber, countryCode, "EC", validity, maxPathLen, keyUsage)
      case Failure(e) => Fail(e)
      case Success(tmpl) =>
        match CreateAndParse(lib, tmpl, tmpl, EcPublic(privKey), EcSigner(privKey))
        case Failure(e) => Fail(e)
        case Success(cert) => Done(cert, privKey)
  }

  /** `ECRootCA`: `CustomECRootCA` with the configured validity, path length and CA key usage. */
  function ECRootCA(lib: Library, cfg: Defaults, now: Time, commonName: string, orgUnit: string,
                    serialNumber: string, countryCode: string, curve: string): (r: Issued<EcPrivateKey>)
    ensures r == CustomECRootCA(lib, now, commonName, orgUnit, serialNumber, countryCode, curve,
                                cfg.certValidity, cfg.maxPathLen, cfg.caKeyUsage)
  {
    CustomECRootCA(lib, now, commonName, orgUnit, serialNumber, countryCode, curve,
                   cfg.certValidity, cfg.maxPathLen, cfg.caKeyUsage)
  }

  /**
   * What the package's tests check of an EC root, given a library that
   * parses back what it creates and generates on the requested curve: the
   * subject is the caller's, the certificate is its own issuer and carries
   * the returned key, it is a CA with the requested path length, the
   * algorithm is ECDSA with SHA-256, and the window runs from `now` for
   * `validity` years.
   */
  lemma ECRootCertificate(lib: Library, now: Time, commonName: string, orgUnit: string, serialNumber: string,
                          countryCode: string, curve: string, validity: int, maxPathLen: int, keyUsage: KeyUsage)
    requires ParseReproduces(lib) && GeneratesRequested(lib)
    requires CustomECRootCA(lib, now, commonName, orgUnit, serialNumber, countryCode, curve, validity,
                            maxPathLen, keyUsage).err.None?
    ensures var r := CustomECRootCA(lib, now, commonName, orgUnit, serialNumber, countryCode, curve, validity,
                                    maxPathLen, keyUsage);
            var cert, key := r.cert.value, r.key.value;
            && cert.subject == SubjectName(commonName, orgUnit, serialNumber, countryCode)
            && cert.issuer == cert.subject
            && cert.publicKey == Some(EcPublic(key))
            && key.curve == CurveFor(curve)
            && cert.isCA && cert.basicConstraintsValid
            && cert.maxPathLen == maxPathLen && (cert.maxPathLenZero <==> maxPathLen == 0)
            && cert.keyUsage == keyUsage
            && cert.signatureAlgorithm == ECDSAWithSHA256
            && cert.notBefore == now && cert.notAfter == AddYears(now, validity)
  {
    var r := CustomECRootCA(lib, now, commonName, orgUnit, serialNumber, countryCode, curve, validity,
                            maxPathLen, keyUsage);
    var key := r.key.value;
    var tmpl := CustomCATemplate(now, commonName, orgUnit, serialNumber, countryCode, "EC", validity,
                                 maxPathLen, keyUsage).value;
    assert Reproduces(r.cert.value, tmpl, tmpl, EcPublic(key));
    UpperOfUpperCase("EC");
  }

  /**
   * With the package defaults, the root may sign only leaves: path length
   * zero, flagged as meaningfully zero, and certificate signing as its only
   * key usage.
   */
  lemma ECRootCADefaults(lib: Library, now: Time, commonName: string, orgUnit: string, serialNumber: string,
                         countryCode: string, curve: string)
    requires ParseReproduces(lib) && GeneratesRequested(lib)
    requires ECRootCA(lib, PackageDefaults, now, commonName, orgUnit, serialNumber, countryCode, curve).err.None?
    ensures var cert := ECRootCA(lib, PackageDefaults, now, commonName, orgUnit, serialNumber, countryCode,
                                 curve).cert.value;
            && cert.isCA && cert.maxPathLen == 0 && cert.maxPathLenZero
            && cert.keyUsage == KeyUsageCertSign
            && cert.notAfter == AddYears(now, 1)
  {
    ECRootCertificate(lib, now, commonName, orgUnit, serialNumber, countryCode, curve,
                      PackageDefaults.certValidity, PackageDefaults.maxPathLen, PackageDefaults.caKeyUsage);
  }

  /**
   * `CustomECLeafCert`: key first, then a leaf template built with the label
   * "EC" and the configured leaf key usage whatever the issuer's family,
   * then the type switch on the issuer key (an RSA or an ECDSA key signs
   * against `caCert`, anything else is an invalid issuer key), then signing
   * and parsing.
   */
  function CustomECLeafCert(lib: Library, cfg: Defaults, now: Time, commonName: string, orgUnit: string,
                            serialNumber: string, countryCode: string, curve: string, validity: int,
                            caCert: Certificate, caPrivKey: PrivateKey): (r: Issued<EcPrivateKey>)
    ensures AllOrNothing(r)
    ensures ECKeys(lib, curve).Failure? ==> r == Fail(ECKeys(lib, curve).error)
    ensures ECKeys(lib, curve).Success? ==>
              var tmpl := CustomLeafTemplate(now, commonName, orgUnit, serialNumber, countryCode, "EC", validity,
                                             cfg.leafKeyUsage);
              && (tmpl.Failure? ==> r == Fail(tmpl.error))
              && (tmpl.Success? && caPrivKey.OtherKey? ==> r == Fail(InvalidIssuerKey(caPrivKey.description)))
              && (r.err.None? ==>
                    && tmpl.Success?
                    && IssuerSigner(caPrivKey).Some?
                    && r.key == Some(ECKeys(lib, curve).value)
                    && CreateAndParse(lib, tmpl.value, caCert, EcPublic(r.key.value), IssuerSigner(caPrivKey).value)
                       == Success(r.cert.value))
    ensures ECKeys(lib, curve).Success? ==>
              var key := ECKeys(lib, curve).value;
              var tmpl := CustomLeafTemplate(now, commonName, orgUnit, serialNumber, countryCode, "EC", validity,
                                             cfg.leafKeyUsage);
              tmpl.Success? && IssuerSigner(caPrivKey).Some? ==>
                var created := CreateAndParse(lib, tmpl.value, caCert, EcPublic(key), IssuerSigner(caPrivKey).value);
                && (created.Failure? ==> r == Fail(created.error))
                && (created.Success? ==> r == Done(created.value, key))
  {
    match ECKeys(lib, curve)
    case Failure(e) => Fail(e)
    case Success(privKey) =>
      match CustomLeafTemplate(now, commonName, orgUnit, serialNumber, countryCode, "EC", validity, cfg.leafKeyUsage)
      case Failure(e) => Fail(e)
      case Success(tmpl) =>
        match IssuerSigner(caPrivKey)
        case None => Fail(InvalidIssuerKey(caPrivKey.description))
        case Some(signer) =>
          match CreateAndParse(lib, tmpl, caCert, EcPublic(privKey), signer)
          case Failure(e) => Fail(e)
          case Success(cert) => Done(cert, privKey)
  }

  /** `ECLeafCert`: `CustomECLeafCert` with the configured validity. */
  function ECLeafCert(lib: Library, cfg: Defaults, now: Time, commonName: string, orgUnit: string,
                      serialNumber: string, countryCode: string, curve: string, caCert: Certificate,
                      caPrivKey: PrivateKey): (r: Issued<EcPrivateKey>)
    ensures r == CustomECLeafCert(lib, cfg, now, commonName, orgUnit, serialNumber, countryCode, curve,
                                  cfg.certValidity, caCert, caPrivKey)
  {
    CustomECLeafCert(lib, cfg, now, commonName, orgUnit, serialNumber, countryCode, curve, cfg.certValidity,
                     caCert, caPrivKey)
  }

  /**
   * What the package's tests check of an EC leaf: the caller's subject, the
   * CA's subject as issuer, the returned key embedded, not a CA, the leaf
   * key usage, ECDSA with SHA-256 whatever signed it, and the window from
   * `now` for `validity` years. A leaf exists only for an RSA or ECDSA
   * issuer.
   */
  lemma ECLeafCertificate(lib: Library, cfg: Defaults, now: Time, commonName: string, orgUnit: string,
                          serialNumber: string, countryCode: string, curve: string, validity: int,
                          caCert: Certificate, caPrivKey: PrivateKey)
    requires ParseReproduces(lib)
    requires CustomECLeafCert(lib, cfg, now, commonName, orgUnit, serialNumber, countryCode, curve, validity,
                              caCert, caPrivKey).err.None?
    ensures var r := CustomECLeafCert(lib, cfg, now, commonName, orgUnit, serialNumber, countryCode, curve,
                                      validity, caCert, caPrivKey);
            var cert := r.cert.value;
            && (caPrivKey.RsaKey? || caPrivKey.EcKey?)
            && cert.subject == SubjectName(commonName, orgUnit, serialNumber, countryCode)
            && cert.issuer == caCert.subject
            && cert.publicKey == Some(EcPublic(r.key.value))
            && !cert.isCA && !cert.basicConstraintsValid && !cert.maxPathLenZero
            && cert.keyUsage == cfg.leafKeyUsage
            && cert.signatureAlgorithm == ECDSAWithSHA256
            && cert.notBefore == now && cert.notAfter == AddYears(now, validity)
  {
    var r := CustomECLeafCert(lib, cfg, now, commonName, orgUnit, serialNumber, countryCode, curve, validity,
                              caCert, caPrivKey);
    var tmpl := CustomLeafTemplate(now, commonName, orgUnit, serialNumber, countryCode, "EC", validity,
                                   cfg.leafKeyUsage).value;
    assert Reproduces(r.cert.value, tmpl, caCert, EcPublic(r.key.value));
    UpperOfUpperCase("EC");
  }

  /**
   * The issuer key decides only the signature: two leaves issued with the
   * same arguments under two different issuer keys (of either family)
   * agree on every field but the raw bytes and the subject key, which a
   * real generator draws afresh on every call.
   */
  lemma ECLeafIssuerIndependent(lib: Library, cfg: Defaults, now: Time, commonName: string, orgUnit: string,
                                serialNumber: string, countryCode: string, curve: string, validity: int,
                                caCert: Certificate, k1: PrivateKey, k2: PrivateKey)
    requires ParseReproduces(lib)
    requires CustomECLeafCert(lib, cfg, now, commonName, orgUnit, serialNumber, countryCode, curve, validity,
                              caCert, k1).err.None?
    requires CustomECLeafCert(lib, cfg, now, commonName, orgUnit, serialNumber, countryCode, curve, validity,
                              caCert, k2).err.None?
    ensures CustomECLeafCert(lib, cfg, now, commonName, orgUnit, serialNumber, countryCode, curve, validity,
                             caCert, k1).cert.value.(raw := [], publicKey := None)
            == CustomECLeafCert(lib, cfg, now, commonName, orgUnit, serialNumber, countryCode, curve, validity,
                                caCert, k2).cert.value.(raw := [], publicKey := None)
  {
    var r1 := CustomECLeafCert(lib, cfg, now, commonName, orgUnit, serialNumber, countryCode, curve, validity,
                               caCert, k1);
    var r2 := CustomECLeafCert(lib, cfg, now, commonName, orgUnit, serialNumber, countryCode, curve, validity,
                               caCert, k2);
    var tmpl := CustomLeafTemplate(now, commonName, orgUnit, serialNumber, countryCode, "EC", validity,
                                   cfg.leafKeyUsage).value;
    var pub := EcPublic(ECKeys(lib, curve).value);
    assert Reproduces(r1.cert.value, tmpl, caCert, pub);
    assert Reproduces(r2.cert.value, tmpl, caCert, pub);
  }
}
