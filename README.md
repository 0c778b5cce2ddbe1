# certhelper in Dafny

A model of the certificate helper package `certhelper` of go-helpers. The helpers build X.509
certificate templates from plain strings and integers, then issue certificates with them: a
self-signed root with an RSA or elliptic-curve key, or a leaf signed by an RSA or ECDSA issuer key.
They also convert certificates and private keys to PEM blocks and store those blocks in files
without overwriting.

The model covers the helpers' own decisions:

- which fields a template carries and where each comes from;
- how the signature algorithm, the curve and the serial number are read from strings;
- the order in which the issuance steps run and fail;
- the type switch on the issuer key;
- which PEM label a key or certificate gets;
- what the file variants write.

The cryptography is not modelled. Key generation, certificate creation, parsing and key marshalling
are fields of a `Library` value (`x509.dfy`). Each field is a total function, and every field but
the PKCS #1 marshaller (which cannot fail in Go either) may return an error. Every helper takes that value as an argument. Lemmas that need the library to behave
(parsing returns what was created, a key is generated on the requested curve or size) take this as
a named hypothesis: `ParseReproduces`, `GeneratesRequested`, `NeverFails`.

The package-level defaults are mutable Go variables that the helpers read at call time. Here they
are a `Defaults` record passed to the helpers, and `PackageDefaults` holds their initial values. The
clock reading is the input `now`.

Modules, one per file:

- `Wrappers`: Option and Result.
- `Strings`: ASCII upper-casing (`strings.ToUpper`).
- `Strconv`: `strconv.Atoi` on a 64-bit platform, with `Itoa` as its inverse.
- `Calendar`: UTC civil time and `AddDate(years, 0, 0)`.
- `X509`: the certificate record, keys, errors, the `Library` value and the issuer-key switch.
- `Constants`: `constants.go`.
- `Template`: `template.go`.
- `EC`: `ec.go`.
- `RSA`: `rsa.go`.
- `Files`: the no-overwrite rule of `filehelper.WriteFile`.
- `Pem`: `pem.go`.
- `Scenario`: an EC root as the package's tests build it, then an RSA leaf of the model's own under
  it, and the tests' clock checks on the validity window.

The model follows the code where it differs from the package's own comments:

- The comment at `certhelper/template.go:66` speaks of converting the serial number to a big
  integer, but the conversion is `strconv.Atoi`, so only values in the 64-bit `int` range are
  accepted.
- The comments at `certhelper/pem.go:14` and `certhelper/pem.go:52` say the functions convert to
  PEM, but `CertDERToPEM`, `CertToPEM` and `KeyToPEM` always return empty bytes: the encoder writes
  into a buffer that is then dropped, and the returned variable is never assigned. As a result, the
  file variants write an empty file when they succeed.

The code also does not check that the validity is positive (`certhelper/template.go:27` only
gives 1 as an example). With a validity of zero or less, the window is empty or reversed
(`Template.ValidityWindow`).

## Model

| member | source | states |
|---|---|---|
| `Strings.Upper` | certhelper/template.go:57 | upper-casing keeps the length and maps each character on its own; no lower-case ASCII letter remains |
| `Strings.UpperIdempotent` | certhelper/ec.go:104 | upper-casing an upper-cased string changes nothing |
| `Strconv.Atoi` | certhelper/template.go:66-71 | succeeds exactly on an optional sign followed by one or more digits whose value fits a 64-bit int; the result is that value, computed by the left-to-right loop and equal to the reference reading of the numeral |
| `Strconv.ScanValue` | certhelper/template.go:67 | on a digit string the left-to-right conversion loop yields the accumulator shifted by the string's length plus the numeral's reference value |
| `Strconv.ScanRejects` | certhelper/template.go:67-70 | the conversion loop rejects a string exactly when some character is not a digit |
| `Strconv.AtoiItoa` | certhelper/template.go:67 | every 64-bit int round-trips through its decimal form; every integer outside the range is rejected |
| `Strconv.AtoiExamples` | certhelper/template.go:67-70 | "+007" reads as 7 and "-12" as -12; "", "+", "12a" and "1_000" are rejected |
| `Calendar.AddYears` | certhelper/template.go:45 | shifting by whole years keeps month, day and time of day, except that 29 February in a common year becomes 1 March |
| `Calendar.AddYearsOrder` | certhelper/template.go:44-45 | a positive shift lands strictly later, zero on the same instant, a negative shift strictly earlier |
| `Calendar.AddYearsMonotone` | certhelper/ec_test.go:87-88 | shifting two ordered instants by the same number of years keeps their order, unless the earlier one is a normalised 29 February |
| `Calendar.LeapDayBreaksMonotonicity` | certhelper/ec_test.go:88 | the exception exists: 29 Feb 2024 23:59:59.999999999 precedes 1 Mar 2024 00:00, but one year later the order is reversed |
| `X509.IssuerSigner` | certhelper/ec.go:80-87 | the issuer-key type switch: an RSA or ECDSA key becomes the signing key of that family, any other value is refused |
| `Constants.PackageDefaultValues` | certhelper/constants.go:7-16 | validity 1 year; leaf usage exactly DigitalSignature and KeyEncipherment with no cert-sign bit; CA usage exactly CertSign; the two masks are disjoint; default path length 0 |
| `Template.SignatureAlgorithmFor` | certhelper/template.go:57-64 | succeeds exactly when the upper-cased label is "EC" or "RSA"; the algorithm's label is the upper-cased input; otherwise the error quotes the label as given |
| `Template.SignatureAlgorithmForLabel` | certhelper/template.go:58-61 | each known algorithm is selected by any spelling of its label |
| `Template.SignatureAlgorithmCaseInsensitive` | certhelper/template.go:57 | upper-casing the label first selects the same algorithm |
| `Template.CustomCATemplate` | certhelper/template.go:33-73 | a template exists exactly when the label and the serial are valid; a bad label is reported before a bad serial; the subject is copied verbatim (organisation = [orgUnit]); window is now to now + validity years; IsCA and BasicConstraintsValid are set; the key usage is copied and the extended key usage is exactly [Any]; MaxPathLen is the argument and MaxPathLenZero holds exactly when it is 0; the numeric serial is the string's decimal value |
| `Template.CustomLeafTemplate` | certhelper/template.go:84-119 | as for the CA template, but IsCA and BasicConstraintsValid are false, MaxPathLen is 0 and MaxPathLenZero is false |
| `Template.CATemplate` | certhelper/template.go:19-23 | `CustomCATemplate` called with the configured validity, path length 0 and key usage CertSign: the default CA template succeeds exactly when the label and serial are valid, is a CA with path length 0 flagged as zero, key usage CertSign, and lasts the configured validity |
| `Template.CATemplateReadsOnlyValidity` | certhelper/template.go:21-22 | the path length and key usage of `CATemplate` are literals: changing those package variables changes nothing |
| `Template.LeafTemplate` | certhelper/template.go:76-81 | `CustomLeafTemplate` called with the configured validity and leaf key usage: the default leaf template succeeds exactly when the label and serial are valid, is not a CA, and carries the configured leaf key usage and validity |
| `Template.SerialKeptVerbatim` | certhelper/template.go:112-117 | serial "+007" gives numeric serial 7 while the subject keeps "+007" |
| `Template.AlgorithmCheckedBeforeSerial` | certhelper/template.go:57-70 | label "DSA" with serial "12a" reports the algorithm error |
| `Template.ValidityWindow` | certhelper/template.go:44-45 | NotBefore precedes NotAfter exactly when the validity is positive |
| `EC.CurveFor` | certhelper/ec.go:104-115 | a curve other than P224 is chosen only by its own upper-cased name; P224 is chosen exactly when the name is none of P256, P384, P521 |
| `EC.CurveForName` | certhelper/ec.go:107-114 | every curve is selected by any spelling of its name |
| `EC.CurveForCaseInsensitive` | certhelper/ec.go:104 | upper-casing the name first selects the same curve |
| `EC.CurveForNamedExamples` | certhelper/ec_test.go:11-15 | "P224", "P256", "P384", "P521" and "p521" select their curves |
| `EC.CurveForFallbackExamples` | certhelper/ec_test.go:16-17 | "P123", "P512", "yolo" and "" fall back to P224 |
| `EC.ECKeys` | certhelper/ec.go:103-116 | the generator's key or error on the curve `CurveFor` selects is returned unchanged; the name is never an error: `ECKeys` fails exactly when key generation on the curve `CurveFor` selects fails; with a faithful generator the key is on that curve |
| `EC.CustomECRootCA` | certhelper/ec.go:24-50 | all or nothing; a key-generation error comes first, then a template error; once key and template exist, a create/parse error is the one returned and a created certificate is returned with the generated key; the certificate is the template (built with "EC") signed against itself with the key's public half and the key |
| `EC.ECRootCA` | certhelper/ec.go:16-21 | the configured validity, path length and CA key usage are passed to `CustomECRootCA` |
| `EC.ECRootCertificate` | certhelper/ec.go:29-49 | with a faithful library: subject verbatim, self-issued, the returned key embedded and on the chosen curve, a CA with the requested path length and usage, ECDSA with SHA-256, window now to now + validity |
| `EC.ECRootCADefaults` | certhelper/ec.go:19-20 | with the package defaults the root has path length 0 flagged as zero, usage CertSign and a one-year window |
| `EC.CustomECLeafCert` | certhelper/ec.go:63-97 | all or nothing; the order of failures is key generation, then template, then an invalid issuer key (any value not RSA or ECDSA), then signing or parsing; once key, template and issuer signer exist, a create/parse error is the one returned and a created certificate is returned with the generated key; the certificate is the leaf template (label "EC", configured leaf usage) signed against caCert by the issuer key |
| `EC.ECLeafCert` | certhelper/ec.go:53-59 | the configured validity is passed to `CustomECLeafCert` |
| `EC.ECLeafCertificate` | certhelper/ec.go:73-96 | with a faithful library: the issuer key is RSA or ECDSA, subject verbatim, issuer = caCert's subject, the returned key embedded, not a CA, leaf usage, ECDSA with SHA-256 whatever the issuer's family, window now to now + validity |
| `EC.ECLeafIssuerIndependent` | certhelper/ec.go:73-87 | two leaves that differ only in the issuer key agree on every field but the raw bytes and the freshly generated subject key: the issuer key decides only the signature |
| `RSA.CustomRSARootCA` | certhelper/rsa.go:22-47 | all or nothing; a key-generation error for keySize is returned before any template is built; once key and template exist, a create/parse error is the one returned and a created certificate is returned with the generated key; the certificate is the "RSA" CA template signed against itself with the generated key |
| `RSA.RSARootCA` | certhelper/rsa.go:14-19 | the configured validity, path length and CA key usage are passed to `CustomRSARootCA` |
| `RSA.RSARootCertificate` | certhelper/rsa.go:26-46 | with a faithful library: subject verbatim, self-issued, the returned key of keySize bits embedded, a CA with the requested path length and usage, SHA-256 with RSA, window now to now + validity |
| `RSA.RSARootCADefaults` | certhelper/rsa.go:17-18 | with the package defaults the root has path length 0 flagged as zero, usage CertSign and a one-year window |
| `RSA.CustomRSALeafCert` | certhelper/rsa.go:60-97 | all or nothing; failures in the order key generation, template, invalid issuer key, signing or parsing; once key, template and issuer signer exist, a create/parse error is the one returned and a created certificate is returned with the generated key; the certificate is the leaf template (label "RSA", configured leaf usage) signed against caCert by the issuer key |
| `RSA.RSALeafCert` | certhelper/rsa.go:50-56 | passes (configured validity, keySize) to `CustomRSALeafCert`'s (validity, keySize); with a faithful generator the key has keySize bits |
| `RSA.RSALeafCertificate` | certhelper/rsa.go:70-96 | with a faithful library: the issuer key is RSA or ECDSA, subject verbatim, issuer = caCert's subject, not a CA, leaf usage, SHA-256 with RSA whatever the issuer's family, window now to now + validity |
| `RSA.RSALeafIssuerIndependent` | certhelper/rsa.go:70-86 | two RSA leaves that differ only in the issuer key agree on every field but the raw bytes and the freshly generated subject key: the issuer key decides only the signature |
| `Files.WriteFile` | filehelper/file.go:47-56 | refused, with nothing changed, exactly when the path exists and overwrite is false; otherwise the path holds the input and every other file is unchanged |
| `Pem.CertDERToPEM` | certhelper/pem.go:15-24 | a "CERTIFICATE" block over the DER bytes, unchanged, is encoded; the returned bytes are always empty and the error is the encoder's |
| `Pem.CertToPEM` | certhelper/pem.go:42-45 | exactly `CertDERToPEM` of the certificate's raw bytes |
| `Pem.KeyBlock` | certhelper/pem.go:57-71 | RSA gives "RSA PRIVATE KEY" over the PKCS #1 bytes; ECDSA gives "EC PRIVATE KEY" over the marshalled bytes or the wrapped marshal error; anything else is an unknown key type |
| `Pem.KeyBlockLabelNamesFamily` | certhelper/pem.go:60-67 | a key block's label names the key's family and is never the certificate label |
| `Pem.KeyToPEM` | certhelper/pem.go:53-76 | succeeds exactly when a block is chosen and encoded; a block error is returned as is, otherwise the encoder's error; the returned bytes are always empty |
| `Pem.CertDERToPEMFile` | certhelper/pem.go:27-39 | a conversion error returns before any write; after a successful conversion an existing path is refused with a path-exists error and left untouched, and a free path is written with the (empty) converted bytes |
| `Pem.CertToPEMFile` | certhelper/pem.go:48-50 | returns no bytes, and the outcome of `CertDERToPEMFile` on the raw bytes: a free path is written when the raw bytes encode |
| `Pem.KeyToPEMFile` | certhelper/pem.go:79-90 | a conversion error (an unknown key type included) returns before any write; after a successful conversion an existing path is refused with a path-exists error and left untouched, and a free path is written with the empty converted bytes |
| `Scenario.RootThenLeafSucceed` | certhelper/rsa.go:60-97 | a scenario of the model's own (the package's tests issue EC leaves only): with a library that never fails, the root "root1" on P256 and an RSA leaf signed by its ECDSA key are both issued |
| `Scenario.RootThenLeafChain` | certhelper/rsa.go:81-83 | the root is self-issued on P256 and may sign only leaves; the leaf names the root's subject as issuer, holds a 2048-bit key, is not a CA and uses SHA-256 with RSA under an ECDSA issuer |
| `Scenario.TestClockChecks` | certhelper/ec_test.go:80-91 | a window built from now starts no later than a later clock reading and ends no later than that reading plus the validity, unless now is a 29 February that gets normalised |

## Left out

- Key generation, certificate creation, DER encoding, parsing, and PKCS #1 and SEC 1 marshalling are library calls. They are fields of `X509.Library` that may fail. Signature validity and curve membership of keys are not modelled.
- X509.ParseReproduces is an idealised hypothesis. Real certificates store times to the second, and parsing adds fields that are not modelled. The lemmas that require it state what the package's tests check, under that hypothesis.
- The library's signing step is opaque. Go's `x509.CreateCertificate` refuses a requested signature algorithm of the other family from the signing key, so a leaf whose label differs from its issuer key's family fails there; in the model that is a signing failure the library may return, and `Scenario.NeverFails` assumes it away.
- Randomness: the library functions are deterministic in the model. Two generations with the same parameters give the same key.
- Clock: the source reads the clock twice, once for NotBefore and once for NotAfter. The model uses one reading `now` for both, so NotAfter is not computed from a slightly later instant.
- Calendar.AddYears: a year beyond Go's `int` range is not modelled.
- Strings.Upper maps ASCII letters only. Go's `strings.ToUpper` also maps other letters, some of them to ASCII (U+017F becomes 'S'). Go therefore accepts a label that the model rejects.
- Strconv.Atoi does not tell a syntax error from a range error. Both are an invalid serial number. A 32-bit platform, with its smaller `int` range, is not modelled.
- PEM text encoding (base64 and line wrapping, section 2 of RFC 7468) is left out. The encoder shows only its error, which is all the helpers observe.
- Files.WriteFile leaves out the operating-system failures of the file helper (access check, create, short write), so it claims success wherever the path is free.
- Reading files, the rest of the file helper, the path helper and the JSON helper are not part of this model.
- A typed nil pointer inside the issuer-key interface matches its family's arm in Go. The model has no nil keys or nil certificates.
