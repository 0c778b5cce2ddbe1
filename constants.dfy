/**
 * The package-level defaults of the certificate helpers. In Go they are
 * mutable package variables that the helpers read at call time, so here
 * they form a configuration record passed to every helper that reads them;
 * `PackageDefaults` holds their initial values.
 */
module Constants {
  import opened X509

  datatype Defaults = Defaults(
    certValidity: int,          // years
    leafKeyUsage: KeyUsage,
    maxPathLen: int,
    caKeyUsage: KeyUsage)

  const PackageDefaults := Defaults(
    1,
    KeyUsageDigitalSignature | KeyUsageKeyEncipherment,
    0,
    KeyUsageCertSign)

  /**
   * Certificates last one year; a leaf may sign data and encipher keys but
   * not certificates; a CA may sign certificates and nothing else; the two
   * masks share no bit; the default path length is zero.
   */
  lemma PackageDefaultValues()
    ensures PackageDefaults.certValidity == 1
    ensures PackageDefaults.leafKeyUsage == KeyUsageDigitalSignature | KeyUsageKeyEncipherment
    ensures PackageDefaults.leafKeyUsage & KeyUsageCertSign == 0
    ensures PackageDefaults.caKeyUsage == KeyUsageCertSign
    ensures PackageDefaults.leafKeyUsage & PackageDefaults.caKeyUsage == 0
    ensures PackageDefaults.maxPathLen == 0
  {
  }
}
