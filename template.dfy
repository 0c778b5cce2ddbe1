/**
 * The template builders of certhelper/template.go. Each builds one
 * unsigned certificate record from the caller's strings and integers:
 * the subject is copied verbatim, the validity window starts at the clock
 * reading `now`, the CA and leaf flags are fixed, the signature algorithm
 * is chosen from the label `algo` and the serial number is read with
 * `strconv.Atoi`. The label is checked before the serial number.
 */
module Template {
  import opened Wrappers
  import opened Strings
  import opened Strconv
  import opened Calendar
  import opened X509
  import opened Constants

  /** The label that selects a signature algorithm, in its canonical upper-case form. */
  function AlgorithmLabel(a: SignatureAlgorithm): string {
    match a
    case ECDSAWithSHA256 => "EC"
    case SHA256WithRSA => "RSA"
    case UnknownSignatureAlgorithm => ""
  }

  /**
   * The switch on `strings.ToUpper(algo)`: "EC" and "RSA" select the
   * SHA-256 algorithm of that family, any other label is an error that
   * quotes the label as given.
   */
  function SignatureAlgorithmFor(algo: string): (r: Result<SignatureAlgorithm, Error>)
    ensures r.Success? <==> Upper(algo) == "EC" || Upper(algo) == "RSA"
    ensures r.Success? ==> AlgorithmLabel(r.value) == Upper(algo)
    ensures r.Failure? ==> r.error == UnsupportedAlgorithm(algo)
  {
    match Upper(algo)
    case "EC" => Success(ECDSAWithSHA256)
    case "RSA" => Success(SHA256WithRSA)
    case _ => Failure(UnsupportedAlgorithm(algo))
  }

  /** Each known algorithm is selected by its own label, whatever its case. */
  lemma SignatureAlgorithmForLabel(a: SignatureAlgorithm, spelling: string)
    requires a != UnknownSignatureAlgorithm
    requires Upper(spelling) == AlgorithmLabel(a)
    ensures SignatureAlgorithmFor(spelling) == Success(a)
  {
  }

  /** Upper-casing the label first changes nothing but the quoted error text. */
  lemma SignatureAlgorithmCaseInsensitive(algo: string)
    ensures SignatureAlgorithmFor(Upper(algo)).Success? == SignatureAlgorithmFor(algo).Success?
    ensures SignatureAlgorithmFor(algo).Success? ==>
              SignatureAlgorithmFor(Upper(algo)) == SignatureAlgorithmFor(algo)
  {
    UpperIdempotent(algo);
  }

  /** The subject as both builders fill it: the organisational unit also becomes the organisation. */
  function SubjectName(commonName: string, orgUnit: string, serialNumber: string, countryCode: string): Name {
    Name(commonName, [countryCode], [orgUnit], [orgUnit], serialNumber)
  }

  /** The fields both builders take verbatim from their arguments: subject, validity, usages. */
  predicate CopiesArguments(cert: Certificate, now: Time, commonName: string, orgUnit: string,
                            serialNumber: string, countryCode: string, validity: int, keyUsage: KeyUsage)
  {
    && cert.subject.commonName == commonName
    && cert.subject.country == [countryCode]
    && cert.subject.organization == [orgUnit]
    && cert.subject.organizationalUnit == [orgUnit]
    && cert.subject.serialNumber == serialNumber
    && cert.notBefore == now
    && cert.notAfter == AddYears(now, validity)
    && cert.keyUsage == keyUsage
    && cert.extKeyUsage == [ExtKeyUsageAny]
  }

  /** An unsigned template: no DER bytes, no issuer, no public key yet. */
  predicate Unsigned(cert: Certificate) {
    cert.raw == [] && cert.issuer == EmptyName && cert.publicKey == None
  }

  /** The record literal at the top of both builders. */
  function Literal(now: Time, commonName: string, orgUnit: string, serialNumber: string, countryCode: string,
                   validity: int, isCA: bool, keyUsage: KeyUsage): Certificate
  {
    Certificate(
      raw := [],
      subject := SubjectName(commonName, orgUnit, serialNumber, countryCode),
      issuer := EmptyName,
      notBefore := now,
      notAfter := AddYears(now, validity),
      isCA := isCA,
      basicConstraintsValid := isCA,
      keyUsage := keyUsage,
      extKeyUsage := [ExtKeyUsageAny],
      maxPathLen := 0,
      maxPathLenZero := false,
      signatureAlgorithm := UnknownSignatureAlgorithm,
      serialNumber := 0,
      publicKey := None)
  }

  /** The tail of both builders: set the algorithm, then the numeric serial; the first error wins. */
  function Finish(cert: Certificate, algo: string, serialNumber: string): Result<Certificate, Error> {
    match SignatureAlgorithmFor(algo)
    case Failure(e) => Failure(e)
    case Success(alg) =>
      match Atoi(serialNumber)
      case None => Failure(InvalidSerialNumber(serialNumber))
      case Some(sn) => Success(cert.(signatureAlgorithm := alg, serialNumber := sn))
  }

  /**
   * `CustomCATemplate`. The template exists exactly when the label names an
   * algorithm and the serial string is a decimal `int`; a bad label is
   * reported even when the serial is also bad.
   */
  function CustomCATemplate(now: Time, commonName: string, orgUnit: string, serialNumber: string,
                            countryCode: string, algo: string, validity: int, maxPathLen: int,
                            keyUsage: KeyUsage): (r: Result<Certificate, Error>)
    ensures r.Success? <==> SignatureAlgorithmFor(algo).Success? && Atoi(serialNumber).Some?
    ensures SignatureAlgorithmFor(algo).Failure? ==> r == Failure(UnsupportedAlgorithm(algo))
    ensures SignatureAlgorithmFor(algo).Success? && Atoi(serialNumber).None? ==>
              r == Failure(InvalidSerialNumber(serialNumber))
    ensures r.Success? ==>
              && CopiesArguments(r.value, now, commonName, orgUnit, serialNumber, countryCode, validity, keyUsage)
              && Unsigned(r.value)
              && r.value.isCA && r.value.basicConstraintsValid
              && r.value.maxPathLen == maxPathLen
              && (r.value.maxPathLenZero <==> maxPathLen == 0)
              && AlgorithmLabel(r.value.signatureAlgorithm) == Upper(algo)
              && IsNumeral(serialNumber) && r.value.serialNumber == NumeralValue(serialNumber)
  {
    var cert := Literal(now, commonName, orgUnit, serialNumber, countryCode, validity, true, keyUsage);
    var cert := cert.(maxPathLen := maxPathLen, maxPathLenZero := maxPathLen == 0);
    Finish(cert, algo, serialNumber)
  }

  /**
   * `CustomLeafTemplate`: as for a CA, but not a CA, without basic
   * constraints, and with the path-length fields left at zero and false.
   */
  function CustomLeafTemplate(now: Time, commonName: string, orgUnit: string, serialNumber: string,
                              countryCode: string, algo: string, validity: int,
                              keyUsage: KeyUsage): (r: Result<Certificate, Error>)
    ensures r.Success? <==> SignatureAlgorithmFor(algo).Success? && Atoi(serialNumber).Some?
    ensures SignatureAlgorithmFor(algo).Failure? ==> r == Failure(UnsupportedAlgorithm(algo))
    ensures SignatureAlgorithmFor(algo).Success? && Atoi(serialNumber).None? ==>
              r == Failure(InvalidSerialNumber(serialNumber))
    ensures r.Success? ==>
              && CopiesArguments(r.value, now, commonName, orgUnit, serialNumber, countryCode, validity, keyUsage)
              && Unsigned(r.value)
              && !r.value.isCA && !r.value.basicConstraintsValid
              && r.value.maxPathLen == 0 && !r.value.maxPathLenZero
              && AlgorithmLabel(r.value.signatureAlgorithm) == Upper(algo)
              && IsNumeral(serialNumber) && r.value.serialNumber == NumeralValue(serialNumber)
  {
    var cert := Literal(now, commonName, orgUnit, serialNumber, countryCode, validity, false, keyUsage);
    Finish(cert, algo, serialNumber)
  }

  /**
   * `CATemplate`: a CA that may sign only leaves (path length zero, marked
   * as meaningfully zero), may sign certificates and nothing else, and
   * lasts the configured number of years. The path length and the key
   * usage are literals in the source, not the package variables.
   */
  function CATemplate(cfg: Defaults, now: Time, commonName: string, orgUnit: string, serialNumber: string,
                      countryCode: string, algo: string): (r: Result<Certificate, Error>)
    ensures r == CustomCATemplate(now, commonName, orgUnit, serialNumber, countryCode, algo, cfg.certValidity, 0,
                                  KeyUsageCertSign)
    ensures r.Success? <==> SignatureAlgorithmFor(algo).Success? && Atoi(serialNumber).Some?
    ensures r.Success? ==>
              && r.value.isCA
              && r.value.maxPathLen == 0 && r.value.maxPathLenZero
              && r.value.keyUsage == KeyUsageCertSign
              && r.value.notAfter == AddYears(now, cfg.certValidity)
  {
    CustomCATemplate(now, commonName, orgUnit, serialNumber, countryCode, algo, cfg.certValidity, 0,
                     KeyUsageCertSign)
  }

  /**
   * `CATemplate` reads only the validity from the package variables:
   * changing the default path length or the default CA key usage does not
   * change what it builds.
   */
  lemma CATemplateReadsOnlyValidity(cfg1: Defaults, cfg2: Defaults, now: Time, commonName: string, orgUnit: string,
                                    serialNumber: string, countryCode: string, algo: string)
    requires cfg1.certValidity == cfg2.certValidity
    ensures CATemplate(cfg1, now, commonName, orgUnit, serialNumber, countryCode, algo)
            == CATemplate(cfg2, now, commonName, orgUnit, serialNumber, countryCode, algo)
  {
  }

  /** `LeafTemplate`: a leaf with the configured validity and leaf key usage. */
  function LeafTemplate(cfg: Defaults, now: Time, commonName: string, orgUnit: string, serialNumber: string,
                        countryCode: string, algo: string): (r: Result<Certificate, Error>)
    ensures r == CustomLeafTemplate(now, commonName, orgUnit, serialNumber, countryCode, algo, cfg.certValidity,
                                    cfg.leafKeyUsage)
    ensures r.Success? <==> SignatureAlgorithmFor(algo).Success? && Atoi(serialNumber).Some?
    ensures r.Success? ==>
              && !r.value.isCA
              && r.value.keyUsage == cfg.leafKeyUsage
              && r.value.notAfter == AddYears(now, cfg.certValidity)
  {
    CustomLeafTemplate(now, commonName, orgUnit, serialNumber, countryCode, algo, cfg.certValidity,
                       cfg.leafKeyUsage)
  }

  /**
   * The numeric serial and the subject's serial attribute part ways: "+007"
   * yields serial number 7 while the subject keeps the string "+007".
   */
  lemma SerialKeptVerbatim(now: Time)
    ensures var r := CustomLeafTemplate(now, "leaf", "unit", "+007", "US", "ec", 1, KeyUsageDigitalSignature);
            r.Success? && r.value.serialNumber == 7 && r.value.subject.serialNumber == "+007"
  {
    AtoiExamples();
    assert Upper("ec") == "EC" by {
      assert Upper("ec")[0] == 'E' && Upper("ec")[1] == 'C';
    }
  }

  /** The label is checked first: a bad label hides a bad serial number. */
  lemma AlgorithmCheckedBeforeSerial(now: Time)
    ensures CustomCATemplate(now, "root", "unit", "12a", "US", "DSA", 1, 0, KeyUsageCertSign)
            == Failure(UnsupportedAlgorithm("DSA"))
  {
    UpperOfUpperCase("DSA");
  }

  /**
   * With the validity window read off the template: it is empty or
   * reversed unless the validity is positive, because nothing checks it.
   */
  lemma ValidityWindow(now: Time, commonName: string, orgUnit: string, serialNumber: string,
                       countryCode: string, algo: string, validity: int, maxPathLen: int, keyUsage: KeyUsage)
    requires CustomCATemplate(now, commonName, orgUnit, serialNumber, countryCode, algo, validity, maxPathLen,
                              keyUsage).Success?
    ensures var t := CustomCATemplate(now, commonName, orgUnit, serialNumber, countryCode, algo, validity,
                                      maxPathLen, keyUsage).value;
            Before(t.notBefore, t.notAfter) <==> validity > 0
  {
    AddYearsOrder(now, validity);
  }
}
