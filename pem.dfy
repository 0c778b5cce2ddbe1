/**
 * The PEM helpers of certhelper/pem.go. A PEM block is a label and the
 * bytes under it; the label is chosen by what is being stored. As written,
 * each converter encodes its block into a fresh buffer and then returns
 * its own result variable, which nothing ever assigned: the returned bytes
 * are always empty, and only the error reports anything.
 */
module Pem {
  import opened Wrappers
  import opened X509
  import opened Files

  const CertificateLabel := "CERTIFICATE"
  const RsaKeyLabel := "RSA PRIVATE KEY"
  const EcKeyLabel := "EC PRIVATE KEY"

  datatype Block = Block(blockType: string, bytes: Bytes)

  /** `pem.Encode` into a buffer that is then dropped: only its error can be seen. */
  type Encoder = Block -> Option<Error>

  /** Go's `([]byte, error)` pair as the converters return it. */
  datatype Converted = Converted(pem: Bytes, err: Option<Error>)

  /**
   * `CertDERToPEM`: a "CERTIFICATE" block over the DER bytes, unchanged, is
   * handed to the encoder; the bytes returned are empty whether or not the
   * encoder fails.
   */
  function CertDERToPEM(encode: Encoder, certDER: Bytes): (r: Converted)
    ensures r.pem == []
    ensures r.err == encode(Block(CertificateLabel, certDER))
  {
    var pemBlock := Block(CertificateLabel, certDER);
    match encode(pemBlock)
    case Some(e) => Converted([], Some(e))
    case None => Converted([], None)
  }

  /** `CertToPEM`: the certificate's raw DER bytes through `CertDERToPEM`. */
  function CertToPEM(encode: Encoder, cert: Certificate): (r: Converted)
    ensures r == CertDERToPEM(encode, cert.raw)
  {
    CertDERToPEM(encode, cert.raw)
  }

  /**
   * The type switch of `KeyToPEM`: an RSA key becomes an "RSA PRIVATE KEY"
   * block over its PKCS #1 encoding, an ECDSA key an "EC PRIVATE KEY" block
   * over its SEC 1 encoding (or the wrapped marshalling error), and any
   * other value is an unknown key type.
   */
  function KeyBlock(lib: Library, privKey: PrivateKey): (r: Result<Block, Error>)
    ensures privKey.RsaKey? ==> r == Success(Block(RsaKeyLabel, lib.marshalPkcs1(privKey.rsa)))
    ensures privKey.EcKey? && lib.marshalEc(privKey.ec).Success? ==>
              r == Success(Block(EcKeyLabel, lib.marshalEc(privKey.ec).value))
    ensures privKey.EcKey? && lib.marshalEc(privKey.ec).Failure? ==>
              r == Failure(EcKeyMarshal(lib.marshalEc(privKey.ec).error))
    ensures privKey.OtherKey? ==> r == Failure(UnknownKeyType(privKey.description))
  {
    match privKey
    case RsaKey(k) => Success(Block(RsaKeyLabel, lib.marshalPkcs1(k)))
    case EcKey(k) =>
      (match lib.marshalEc(k)
       case Failure(e) => Failure(EcKeyMarshal(e))
       case Success(b) => Success(Block(EcKeyLabel, b)))
    case OtherKey(d) => Failure(UnknownKeyType(d))
  }

  /**
   * The label of a key block names the key's family, and is never the
   * certificate label: a reader can tell from the label alone what the
   * block holds.
   */
  lemma KeyBlockLabelNamesFamily(lib: Library, privKey: PrivateKey)
    requires KeyBlock(lib, privKey).Success?
    ensures KeyBlock(lib, privKey).value.blockType == RsaKeyLabel <==> privKey.RsaKey?
    ensures KeyBlock(lib, privKey).value.blockType == EcKeyLabel <==> privKey.EcKey?
    ensures KeyBlock(lib, privKey).value.blockType != CertificateLabel
  {
  }

  /**
   * `KeyToPEM`: fails on an unknown key type, on a marshalling error or on
   * an encoder error, and otherwise succeeds; the bytes returned are empty
   * either way.
   */
  function KeyToPEM(lib: Library, encode: Encoder, privKey: PrivateKey): (r: Converted)
    ensures r.pem == []
    ensures r.err.None? <==> KeyBlock(lib, privKey).Success? && encode(KeyBlock(lib, privKey).value).None?
    ensures KeyBlock(lib, privKey).Failure? ==> r.err == Some(KeyBlock(lib, privKey).error)
    ensures KeyBlock(lib, privKey).Success? ==> r.err == encode(KeyBlock(lib, privKey).value)
  {
    match KeyBlock(lib, privKey)
    case Failure(e) => Converted([], Some(e))
    case Success(pemBlock) =>
      match encode(pemBlock)
      case Some(e) => Converted([], Some(e))
      case None => Converted([], None)
  }

  /**
   * `CertDERToPEMFile`: a conversion error is returned before anything is
   * written; otherwise the converted bytes go to `filename` without
   * overwriting. An existing file is never touched, and a successful call
   * leaves an empty file behind, because the converted bytes are empty.
   */
  function CertDERToPEMFile(encode: Encoder, fs: FileSystem, certDER: Bytes, filename: string): (r: Stored)
    ensures CertDERToPEM(encode, certDER).err.Some? ==> r == Stored(fs, CertDERToPEM(encode, certDER).err)
    ensures CertDERToPEM(encode, certDER).err.None? && filename in fs ==>
              r == Stored(fs, Some(PathExists(filename)))
    ensures CertDERToPEM(encode, certDER).err.None? && filename !in fs ==>
              r == Stored(fs[filename := []], None)
    ensures filename in fs ==> r.fs == fs && r.err.Some?
    ensures r.err.None? ==> r.fs == fs[filename := []]
  {
    var p := CertDERToPEM(encode, certDER);
    if p.err.Some? then Stored(fs, p.err)
    else WriteFile(fs, p.pem, filename, false)
  }

  /** `CertToPEMFile`: no bytes, and the outcome of `CertDERToPEMFile` on the raw DER bytes. */
  function CertToPEMFile(encode: Encoder, fs: FileSystem, cert: Certificate, filename: string): (r: (Bytes, Stored))
    ensures r.0 == []
    ensures r.1 == CertDERToPEMFile(encode, fs, cert.raw, filename)
    ensures encode(Block(CertificateLabel, cert.raw)).None? && filename !in fs ==>
              r.1 == Stored(fs[filename := []], None)
  {
    ([], CertDERToPEMFile(encode, fs, cert.raw, filename))
  }

  /**
   * `KeyToPEMFile`: a conversion error (an unknown key type included) is
   * returned before anything is written; otherwise the converted bytes go
   * to `filename` without overwriting.
   */
  function KeyToPEMFile(lib: Library, encode: Encoder, fs: FileSystem, privKey: PrivateKey,
                        filename: string): (r: Stored)
    ensures KeyToPEM(lib, encode, privKey).err.Some? ==> r == Stored(fs, KeyToPEM(lib, encode, privKey).err)
    ensures privKey.OtherKey? ==> r == Stored(fs, Some(UnknownKeyType(privKey.description)))
    ensures KeyToPEM(lib, encode, privKey).err.None? && filename in fs ==>
              r == Stored(fs, Some(PathExists(filename)))
    ensures KeyToPEM(lib, encode, privKey).err.None? && filename !in fs ==>
              r == Stored(fs[filename := []], None)
    ensures filename in fs ==> r.fs == fs && r.err.Some?
    ensures r.err.None? ==> r.fs == fs[filename := []]
  {
    var p := KeyToPEM(lib, encode, privKey);
    if p.err.Some? then Stored(fs, p.err)
    else WriteFile(fs, p.pem, filename, false)
  }
}
