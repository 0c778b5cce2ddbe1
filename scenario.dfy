/**
 * The helpers used together: an EC root issues an RSA leaf (a scenario of
 * the model's own; the package's tests issue EC leaves only), and the
 * tests' clock checks on the validity window.
 */
module Scenario {
  import opened Wrappers
  import opened Strings
  import opened Strconv
  import opened Calendar
  import opened X509
  import opened Constants
  import opened Template
  import opened EC
  import opened RSA

  /** A library whose every call succeeds. */
  ghost predicate NeverFails(lib: Library) {
    && (forall c :: lib.generateEc(c).Success?)
    && (forall bits :: lib.generateRsa(bits).Success?)
    && (forall tmpl, parent, pub, signer :: lib.createCertificate(tmpl, parent, pub, signer).Success?)
    && (forall der :: lib.parseCertificate(der).Success?)
  }

  /** The serial numbers of the scenario are decimal `int`s. */
  lemma ScenarioSerials()
    ensures Atoi("1234") == Some(1234)
    ensures Atoi("5678") == Some(5678)
  {
    AtoiItoa(1234);
    assert Itoa(1234) == "1234" by {
      assert FormatDigits(1234) == FormatDigits(123) + ['4'];
      assert FormatDigits(123) == FormatDigits(12) + ['3'];
      assert FormatDigits(12) == FormatDigits(1) + ['2'];
    }
    AtoiItoa(5678);
    assert Itoa(5678) == "5678" by {
      assert FormatDigits(5678) == FormatDigits(567) + ['8'];
      assert FormatDigits(567) == FormatDigits(56) + ['7'];
      assert FormatDigits(56) == FormatDigits(5) + ['6'];
    }
  }

  /**
   * With a library that never fails, the helpers' own checks let the root
   * "root1" (curve P256, package defaults) through, and then the leaf
   * "leaf1" (RSA, 2048 bits) issued by that root's ECDSA key. `NeverFails`
   * is exactly what Go's `x509.CreateCertificate` does not grant here: it
   * refuses to sign a template asking for SHA-256 with RSA with an ECDSA
   * key, so the real call ends in a signing error.
   */
  lemma RootThenLeafSucceed(lib: Library, now: Time, later: Time)
    requires NeverFails(lib)
    ensures var root := ECRootCA(lib, PackageDefaults, now, "root1", "org1", "1234", "US", "P256");
            && root.err.None?
            && RSALeafCert(lib, PackageDefaults, later, "leaf1", "org1", "5678", "US", 2048, root.cert.value,
                           EcKey(root.key.value)).err.None?
  {
    ScenarioSerials();
    UpperOfUpperCase("EC");
    UpperOfUpperCase("RSA");
    var root := ECRootCA(lib, PackageDefaults, now, "root1", "org1", "1234", "US", "P256");
    var rootTmpl := CustomCATemplate(now, "root1", "org1", "1234", "US", "EC", 1, 0, KeyUsageCertSign);
    assert rootTmpl.Success?;
    assert root.err.None?;
    var leafTmpl := CustomLeafTemplate(later, "leaf1", "org1", "5678", "US", "RSA", 1,
                                       PackageDefaults.leafKeyUsage);
    assert leafTmpl.Success?;
  }

  /**
   * The chain the two calls build: the root is self-issued on curve P256 and
   * may sign only leaves; the leaf names the root's subject as issuer, holds
   * a 2048-bit RSA key, is not a CA, and is signed with SHA-256 with RSA even
   * though its issuer's key is an ECDSA key. The real library refuses
   * that mix of families, so with it the second requires cannot be met.
   */
  lemma RootThenLeafChain(lib: Library, now: Time, later: Time)
    requires ParseReproduces(lib) && GeneratesRequested(lib)
    requires ECRootCA(lib, PackageDefaults, now, "root1", "org1", "1234", "US", "P256").err.None?
    requires var root := ECRootCA(lib, PackageDefaults, now, "root1", "org1", "1234", "US", "P256");
             RSALeafCert(lib, PackageDefaults, later, "leaf1", "org1", "5678", "US", 2048, root.cert.value,
                         EcKey(root.key.value)).err.None?
    ensures var root := ECRootCA(lib, PackageDefaults, now, "root1", "org1", "1234", "US", "P256");
            var leaf := RSALeafCert(lib, PackageDefaults, later, "leaf1", "org1", "5678", "US", 2048,
                                    root.cert.value, EcKey(root.key.value));
            && root.cert.value.issuer == root.cert.value.subject
            && root.cert.value.subject.commonName == "root1"
            && root.key.value.curve == P256
            && root.cert.value.isCA && root.cert.value.maxPathLenZero
            && leaf.cert.value.issuer == root.cert.value.subject
            && leaf.cert.value.subject.commonName == "leaf1"
            && leaf.key.value.bits == 2048
            && !leaf.cert.value.isCA
            && leaf.cert.value.signatureAlgorithm == SHA256WithRSA
  {
    var root := ECRootCA(lib, PackageDefaults, now, "root1", "org1", "1234", "US", "P256");
    ECRootCertificate(lib, now, "root1", "org1", "1234", "US", "P256", PackageDefaults.certValidity,
                      PackageDefaults.maxPathLen, PackageDefaults.caKeyUsage);
    CurveForNamedExamples();
    RSALeafCertificate(lib, PackageDefaults, later, "leaf1", "org1", "5678", "US", PackageDefaults.certValidity,
                       2048, root.cert.value, EcKey(root.key.value));
  }

  /**
   * The tests read the clock again after issuing (`later`) and check that
   * the certificate's window starts no later than that reading and ends no
   * later than that reading plus the validity. Both hold for any window
   * built from `now`, unless `now` is a 29 February that the shift
   * normalises to 1 March (see Calendar.LeapDayBreaksMonotonicity).
   */
  lemma TestClockChecks(cert: Certificate, now: Time, later: Time, validity: int)
    requires cert.notBefore == now && cert.notAfter == AddYears(now, validity)
    requires !Before(later, now)
    requires !IsLeapDay(now) || IsLeap(now.year + validity)
    ensures !Before(later, cert.notBefore)
    ensures !Before(AddYears(later, validity), cert.notAfter)
  {
    AddYearsMonotone(now, later, validity);
  }
}
