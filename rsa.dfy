/**
 * The RSA helpers of certhelper/rsa.go: the self-signed RSA root and the
 * RSA leaf signed by any RSA or ECDSA issuer. The key of `keySize` bits is
 * generated first; the template is always built with the label "RSA".
 */
module RSA {
  import opened Wrappers
  import opened Strings
  import opened Calendar
  import opened X509
  import opened Constants
  import opened Template

  /**
   * `CustomRSARootCA`: generate the key, build an "RSA" CA template, create
   * the certificate with the template as its own parent and the new key as
   * signer, parse it. A key-generation error is returned before any
   * template is built.
   */
  function CustomRSARootCA(lib: Library, now: Time, commonName: string, orgUnit: string, serialNumber: string,
                           countryCode: string, keySize: int, validity: int, maxPathLen: int,
                           keyUsage: KeyUsage): (r: Issued<RsaPrivateKey>)
    ensures AllOrNothing(r)
    ensures lib.generateRsa(keySize).Failure? ==> r == Fail(lib.generateRsa(keySize).error)
    ensures lib.generateRsa(keySize).Success? ==>
              var tmpl := CustomCATemplate(now, commonName, orgUnit, serialNumber, countryCode, "RSA", validity,
                                           maxPathLen, keyUsage);
              && (tmpl.Failure? ==> r == Fail(tmpl.error))
              && (r.err.None? ==>
                    && tmpl.Success?
                    && r.key == Some(lib.generateRsa(keySize).value)
                    && CreateAndParse(lib, tmpl.value, tmpl.value, RsaPublic(r.key.value), RsaSigner(r.key.value))
                       == Success(r.cert.value))
    ensures lib.generateRsa(keySize).Success? ==>
              var key := lib.generateRsa(keySize).value;
              var tmpl := CustomCATemplate(now, commonName, orgUnit, serialNumber, countryCode, "RSA", validity,
                                           maxPathLen, keyUsage);
              tmpl.Success? ==>
                var created := CreateAndParse(lib, tmpl.value, tmpl.value, RsaPublic(key), RsaSigner(key));
                && (created.Failure? ==> r == Fail(created.error))
                && (created.Success? ==> r == Done(created.value, key))
  {
    match lib.generateRsa(keySize)
    case Failure(e) => Fail(e)
    case Success(privKey) =>
      match CustomCATemplate(now, commonName, orgUnit, serialNumber, countryCode, "RSA", validity, maxPathLen,
                             keyUsage)
      case Failure(e) => Fail(e)
      case Success(tmpl) =>
        match CreateAndParse(lib, tmpl, tmpl, RsaPublic(privKey), RsaSigner(privKey))
        case Failure(e) => Fail(e)
        case Success(cert) => Done(cert, privKey)
  }

  /** `RSARootCA`: `CustomRSARootCA` with the configured validity, path length and CA key usage. */
  function RSARootCA(lib: Library, cfg: Defaults, now: Time, commonName: string, orgUnit: string,
                     serialNumber: string, countryCode: string, keySize: int): (r: Issued<RsaPrivateKey>)
    ensures r == CustomRSARootCA(lib, now, commonName, orgUnit, serialNumber, countryCode, keySize,
                                 cfg.certValidity, cfg.maxPathLen, cfg.caKeyUsage)
  {
    CustomRSARootCA(lib, now, commonName, orgUnit, serialNumber, countryCode, keySize,
                    cfg.certValidity, cfg.maxPathLen, cfg.caKeyUsage)
  }

  /**
   * What the package's tests check of an RSA root: the caller's subject,
   * self-issued, carrying the returned key of the requested size, a CA with
   * the requested path length, SHA-256 with RSA, and the window from `now`
   * for `validity` years.
   */
  lemma RSARootCertificate(lib: Library, now: Time, commonName: string, orgUnit: string, serialNumber: string,
                           countryCode: string, keySize: int, validity: int, maxPathLen: int, keyUsage: KeyUsage)
    requires ParseReproduces(lib) && GeneratesRequested(lib)
    requires CustomRSARootCA(lib, now, commonName, orgUnit, serialNumber, countryCode, keySize, validity,
                             maxPathLen, keyUsage).err.None?
    ensures var r := CustomRSARootCA(lib, now, commonName, orgUnit, serialNumber, countryCode, keySize, validity,
                                     maxPathLen, keyUsage);
            var cert, key := r.cert.value, r.key.value;
            && cert.subject == SubjectName(commonName, orgUnit, serialNumber, countryCode)
            && cert.issuer == cert.subject
            && cert.publicKey == Some(RsaPublic(key))
            && key.bits == keySize
            && cert.isCA && cert.basicConstraintsValid
            && cert.maxPathLen == maxPathLen && (cert.maxPathLenZero <==> maxPathLen == 0)
            && cert.keyUsage == keyUsage
            && cert.signatureAlgorithm == SHA256WithRSA
            && cert.notBefore == now && cert.notAfter == AddYears(now, validity)
  {
    var r := CustomRSARootCA(lib, now, commonName, orgUnit, serialNumber, countryCode, keySize, validity,
                             maxPathLen, keyUsage);
    var key := r.key.value;
    var tmpl := CustomCATemplate(now, commonName, orgUnit, serialNumber, countryCode, "RSA", validity,
                                 maxPathLen, keyUsage).value;
    assert Reproduces(r.cert.value, tmpl, tmpl, RsaPublic(key));
    UpperOfUpperCase("RSA");
  }

  /** With the package defaults, the RSA root may sign only leaves. */
  lemma RSARootCADefaults(lib: Library, now: Time, commonName: string, orgUnit: string, serialNumber: string,
                          countryCode: string, keySize: int)
    requires ParseReproduces(lib) && GeneratesRequested(lib)
    requires RSARootCA(lib, PackageDefaults, now, commonName, orgUnit, serialNumber, countryCode, keySize).err.None?
    ensures var cert := RSARootCA(lib, PackageDefaults, now, commonName, orgUnit, serialNumber, countryCode,
                                  keySize).cert.value;
            && cert.isCA && cert.maxPathLen == 0 && cert.maxPathLenZero
            && cert.keyUsage == KeyUsageCertSign
            && cert.notAfter == AddYears(now, 1)
  {
    RSARootCertificate(lib, now, commonName, orgUnit, serialNumber, countryCode, keySize,
                       PackageDefaults.certValidity, PackageDefaults.maxPathLen, PackageDefaults.caKeyUsage);
  }

  /**
   * `CustomRSALeafCert`: key first, then a leaf template built with the
   * label "RSA" and the configured leaf key usage whatever the issuer's
   * family, then the type switch on the issuer key, then signing and
   * parsing. Note the parameter order: validity before key size.
   */
  function CustomRSALeafCert(lib: Library, cfg: Defaults, now: Time, commonName: string, orgUnit: string,
                             serialNumber: string, countryCode: string, validity: int, keySize: int,
                             caCert: Certificate, caPrivKey: PrivateKey): (r: Issued<RsaPrivateKey>)
    ensures AllOrNothing(r)
    ensures lib.generateRsa(keySize).Failure? ==> r == Fail(lib.generateRsa(keySize).error)
    ensures lib.generateRsa(keySize).Success? ==>
              var tmpl := CustomLeafTemplate(now, commonName, orgUnit, serialNumber, countryCode, "RSA", validity,
                                             cfg.leafKeyUsage);
              && (tmpl.Failure? ==> r == Fail(tmpl.error))
              && (tmpl.Success? && caPrivKey.OtherKey? ==> r == Fail(InvalidIssuerKey(caPrivKey.description)))
              && (r.err.None? ==>
                    && tmpl.Success?
                    && IssuerSigner(caPrivKey).Some?
                    && r.key == Some(lib.generateRsa(keySize).value)
                    && CreateAndParse(lib, tmpl.value, caCert, RsaPublic(r.key.value), IssuerSigner(caPrivKey).value)
                       == Success(r.cert.value))
    ensures lib.generateRsa(keySize).Success? ==>
              var key := lib.generateRsa(keySize).value;
              var tmpl := CustomLeafTemplate(now, commonName, orgUnit, serialNumber, countryCode, "RSA", validity,
                                             cfg.leafKeyUsage);
              tmpl.Success? && IssuerSigner(caPrivKey).Some? ==>
                var created := CreateAndParse(lib, tmpl.value, caCert, RsaPublic(key), IssuerSigner(caPrivKey).value);
                && (created.Failure? ==> r == Fail(created.error))
                && (created.Success? ==> r == Done(created.value, key))
  {
    match lib.generateRsa(keySize)
    case Failure(e) => Fail(e)
    case Success(privKey) =>
      match CustomLeafTemplate(now, commonName, orgUnit, serialNumber, countryCode, "RSA", validity,
                               cfg.leafKeyUsage)
      case Failure(e) => Fail(e)
      case Success(tmpl) =>
        match IssuerSigner(caPrivKey)
        case None => Fail(InvalidIssuerKey(caPrivKey.description))
        case Some(signer) =>
          match CreateAndParse(lib, tmpl, caCert, RsaPublic(privKey), signer)
          case Failure(e) => Fail(e)
          case Success(cert) => Done(cert, privKey)
  }

  /**
   * `RSALeafCert` passes the configured validity and its own key size to
   * `CustomRSALeafCert` in that order: with a library that honours the
   * requested size, the leaf's key has `keySize` bits and its window lasts
   * the configured number of years.
   */
  function RSALeafCert(lib: Library, cfg: Defaults, now: Time, commonName: string, orgUnit: string,
                       serialNumber: string, countryCode: string, keySize: int, caCert: Certificate,
                       caPrivKey: PrivateKey): (r: Issued<RsaPrivateKey>)
    ensures r == CustomRSALeafCert(lib, cfg, now, commonName, orgUnit, serialNumber, countryCode,
                                   cfg.certValidity, keySize, caCert, caPrivKey)
    ensures GeneratesRequested(lib) && r.err.None? ==> r.key.value.bits == keySize
  {
    CustomRSALeafCert(lib, cfg, now, commonName, orgUnit, serialNumber, countryCode, cfg.certValidity, keySize,
                      caCert, caPrivKey)
  }

  /**
   * What the package's tests check of an RSA leaf: the caller's subject, the
   * CA's subject as issuer, the returned key embedded, not a CA, the leaf
   * key usage, SHA-256 with RSA whatever signed it, and the window from
   * `now` for `validity` years. A leaf exists only for an RSA or ECDSA
   * issuer.
   */
  lemma RSALeafCertificate(lib: Library, cfg: Defaults, now: Time, commonName: string, orgUnit: string,
                           serialNumber: string, countryCode: string, validity: int, keySize: int,
                           caCert: Certificate, caPrivKey: PrivateKey)
    requires ParseReproduces(lib)
    requires CustomRSALeafCert(lib, cfg, now, commonName, orgUnit, serialNumber, countryCode, validity, keySize,
                               caCert, caPrivKey).err.None?
    ensures var r := CustomRSALeafCert(lib, cfg, now, commonName, orgUnit, serialNumber, countryCode, validity,
                                       keySize, caCert, caPrivKey);
            var cert := r.cert.value;
            && (caPrivKey.RsaKey? || caPrivKey.EcKey?)
            && cert.subject == SubjectName(commonName, orgUnit, serialNumber, countryCode)
            && cert.issuer == caCert.subject
            && cert.publicKey == Some(RsaPublic(r.key.value))
            && !cert.isCA && !cert.basicConstraintsValid && !cert.maxPathLenZero
            && cert.keyUsage == cfg.leafKeyUsage
            && cert.signatureAlgorithm == SHA256WithRSA
            && cert.notBefore == now && cert.notAfter == AddYears(now, validity)
  {
    var r := CustomRSALeafCert(lib, cfg, now, commonName, orgUnit, serialNumber, countryCode, validity, keySize,
                               caCert, caPrivKey);
    var tmpl := CustomLeafTemplate(now, commonName, orgUnit, serialNumber, countryCode, "RSA", validity,
                                   cfg.leafKeyUsage).value;
    assert Reproduces(r.cert.value, tmpl, caCert, RsaPublic(r.key.value));
    UpperOfUpperCase("RSA");
  }

  /**
   * The issuer key decides only the signature: two RSA leaves issued with
   * the same arguments under two different issuer keys agree on every field
   * but the raw bytes and the subject key, which a real generator draws
   * afresh on every call.
   */
  lemma RSALeafIssuerIndependent(lib: Library, cfg: Defaults, now: Time, commonName: string, orgUnit: string,
                                 serialNumber: string, countryCode: string, validity: int, keySize: int,
                                 caCert: Certificate, k1: PrivateKey, k2: PrivateKey)
    requires ParseReproduces(lib)
    requires CustomRSALeafCert(lib, cfg, now, commonName, orgUnit, serialNumber, countryCode, validity, keySize,
                               caCert, k1).err.None?
    requires CustomRSALeafCert(lib, cfg, now, commonName, orgUnit, serialNumber, countryCode, validity, keySize,
                               caCert, k2).err.None?
    ensures CustomRSALeafCert(lib, cfg, now, commonName, orgUnit, serialNumber, countryCode, validity, keySize,
                              caCert, k1).cert.value.(raw := [], publicKey := None)
            == CustomRSALeafCert(lib, cfg, now, commonName, orgUnit, serialNumber, countryCode, validity, keySize,
                                 caCert, k2).cert.value.(raw := [], publicKey := None)
  {
    var r1 := CustomRSALeafCert(lib, cfg, now, commonName, orgUnit, serialNumber, countryCode, validity, keySize,
                                caCert, k1);
    var r2 := CustomRSALeafCert(lib, cfg, now, commonName, orgUnit, serialNumber, countryCode, validity, keySize,
                                caCert, k2);
    var tmpl := CustomLeafTemplate(now, commonName, orgUnit, serialNumber, countryCode, "RSA", validity,
                                   cfg.leafKeyUsage).value;
    var pub := RsaPublic(lib.generateRsa(keySize).value);
    assert Reproduces(r1.cert.value, tmpl, caCert, pub);
    assert Reproduces(r2.cert.value, tmpl, caCert, pub);
  }
}
