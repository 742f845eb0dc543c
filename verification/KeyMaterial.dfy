/** The stored documents, the settings, and the cryptographic steps that tie them together. */
module KeyMaterial {
  import opened Basics
  import Base64
  import Hex
  import KmsArn
  import ObjectNames

  const KEY_MATERIAL_VERSION: nat := 2
  const PRIVATE_KEY_ALGORITHM := "ED25519"
  const PRIVATE_KEY_ENCRYPTION := "AES-GCM"
  const RECOVERY_POLICY := "any-one"

  // ----- documents -----

  datatype ObjectReference = ObjectReference(objectKey: string, sha256: string)

  datatype RecoveryReference = RecoveryReference(kmsKeyArn: string, objectKey: string, sha256: string)

  datatype Manifest = Manifest(
    version: nat, recoveryPolicy: string, keyFingerprint: string, privateKeyAlgorithm: string,
    privateKeyEncryption: string, publicKey: ObjectReference, recoveryObjects: seq<RecoveryReference>)

  datatype PublicKeyDocument = PublicKeyDocument(
    version: nat, algorithm: string, publicKeyBase64: string, fingerprintSha256: string)

  datatype RecoveryPackage = RecoveryPackage(
    version: nat, encryptedDataKeyBase64: string, privateKeyNonceBase64: string, encryptedPrivateKeyBase64: string)

  // ----- settings -----

  datatype KmsSlot = Primary | Backup

  datatype StartupMode = Serve | InitKey

  type Context = Option<map<string, string>>

  datatype KmsKey = KmsKey(slot: KmsSlot, arn: string, region: string)

  datatype Settings = Settings(
    kmsKeys: seq<KmsKey>, bucket: string, prefix: string, startupMode: StartupMode, context: Context)

  datatype KeyPair = KeyPair(publicKey: Bytes32, fingerprint: string, kmsKeyArn: string)

  datatype Error =
    | WrongKeyCount | SameArn | BadArn | RegionMismatch
    | ManifestExists | ManifestMissing | ObjectMissing | HashMismatch | BadJson
    | UnsupportedManifest | UnsupportedPublicKey | FingerprintMismatch | UnsupportedPackage
    | BadBase64 | BadLength | KmsFailed | UnexpectedKeyId | BadDataKeyLength | DecryptFailed | KeyMismatch
    | NoReference | AllFailed(failures: seq<(string, Error)>)
    | Transport | Rejected | Conflict | UnknownCommand

  // ----- everything outside this program -----

  /**
   * The libraries and services the program relies on, as functions. SHA-256 (FIPS 180-4), AES-GCM (NIST SP
   * 800-38D, section 7), Ed25519 public keys (RFC 8032, section 5.1.5), the JSON form of the documents, and the
   * answer KMS gives to a Decrypt of a blob under a key and context when it answers at all.
   */
  datatype World = World(
    sha256: Bytes -> Bytes32,
    utf8: string -> Bytes,
    seal: (Bytes, Bytes12, Bytes) -> Bytes,
    open: (Bytes, Bytes12, Bytes) -> Option<Bytes>,
    publicKeyOf: Bytes32 -> Bytes32,
    kmsDecrypt: (string, Context, Bytes) -> Option<Bytes>,
    manifests: Codec<Manifest>,
    publicKeys: Codec<PublicKeyDocument>,
    packages: Codec<RecoveryPackage>)

  predicate SupportedKeyLength(dataKey: Bytes) {
    |dataKey| == 16 || |dataKey| == 32
  }

  /** The only laws assumed: documents read back, and opening undoes sealing. */
  ghost predicate Lawful(w: World) {
    && Inverts(w.manifests) && Inverts(w.publicKeys) && Inverts(w.packages)
    && forall key, nonce, text :: SupportedKeyLength(key) ==> w.open(key, nonce, w.seal(key, nonce, text)) == Some(text)
  }

  function Sha256Hex(w: World, body: Bytes): (hex: string)
    ensures |hex| == 64
  {
    Hex.Encode(w.sha256(body))
  }

  function ArnDigest(w: World, arn: string): Bytes32 {
    w.sha256(w.utf8(arn))
  }

  // ----- validation -----

  function ValidateConfiguration(s: Settings): Result<(), Error> {
    if |s.kmsKeys| != 2 then Err(WrongKeyCount)
    else if s.kmsKeys[0].arn == s.kmsKeys[1].arn then Err(SameArn)
    else if KmsArn.AccountFromArn(s.kmsKeys[0].arn).Err? then Err(BadArn)
    else if KmsArn.AccountFromArn(s.kmsKeys[1].arn).Err? then Err(BadArn)
    else if s.kmsKeys[0].region != s.kmsKeys[1].region then Err(RegionMismatch)
    else Ok(())
  }

  function ValidateManifest(m: Manifest): Result<(), Error> {
    if m.version != KEY_MATERIAL_VERSION then Err(UnsupportedManifest)
    else if m.recoveryPolicy != RECOVERY_POLICY then Err(UnsupportedManifest)
    else if m.privateKeyAlgorithm != PRIVATE_KEY_ALGORITHM || m.privateKeyEncryption != PRIVATE_KEY_ENCRYPTION
    then Err(UnsupportedManifest)
    else if |m.recoveryObjects| != 2 then Err(UnsupportedManifest)
    else Ok(())
  }

  function VerifySha256(w: World, body: Bytes, expected: string): Result<(), Error> {
    if Sha256Hex(w, body) != expected then Err(HashMismatch) else Ok(())
  }

  function DecodeBytes32(text: string): Result<Bytes32, Error> {
    match Base64.Decode(text)
    case None => Err(BadBase64)
    case Some(bytes) => if |bytes| == 32 then Ok(bytes) else Err(BadLength)
  }

  function DecodeBytes12(text: string): Result<Bytes12, Error> {
    match Base64.Decode(text)
    case None => Err(BadBase64)
    case Some(bytes) => if |bytes| == 12 then Ok(bytes) else Err(BadLength)
  }

  function ValidatePublicDocument(w: World, d: PublicKeyDocument, m: Manifest): Result<Bytes32, Error> {
    if d.version != KEY_MATERIAL_VERSION || d.algorithm != PRIVATE_KEY_ALGORITHM then Err(UnsupportedPublicKey)
    else match DecodeBytes32(d.publicKeyBase64)
      case Err(e) => Err(e)
      case Ok(publicKey) =>
        var fingerprint := Sha256Hex(w, publicKey);
        if fingerprint != d.fingerprintSha256 || fingerprint != m.keyFingerprint then Err(FingerprintMismatch)
        else Ok(publicKey)
  }

  /** An ARN with a region and an account, no field before the key id containing a colon. */
  ghost predicate FullArn(arn: string) {
    exists a: KmsArn.KeyArn :: KmsArn.ColonFree(a) && KmsArn.Compose(a) == arn && a.region != "" && a.account != ""
  }

  /** Start-up accepts exactly two different full ARNs configured for one region. */
  lemma ConfigurationExact(s: Settings)
    ensures ValidateConfiguration(s).Ok? <==>
            && |s.kmsKeys| == 2 && s.kmsKeys[0].arn != s.kmsKeys[1].arn && s.kmsKeys[0].region == s.kmsKeys[1].region
            && FullArn(s.kmsKeys[0].arn) && FullArn(s.kmsKeys[1].arn)
  {
    hide KmsArn.RegionFromArn;
    hide KmsArn.AccountFromArn;
    if |s.kmsKeys| == 2 {
      AccountExact(s.kmsKeys[0].arn);
      AccountExact(s.kmsKeys[1].arn);
    }
  }

  lemma AccountExact(arn: string)
    ensures KmsArn.AccountFromArn(arn).Ok? <==> FullArn(arn)
  {
    hide KmsArn.RegionFromArn;
    hide KmsArn.AccountFromArn;
    hide KmsArn.Compose;
    if KmsArn.RegionFromArn(arn).Ok? {
      var a := KmsArn.RegionReaderExact(arn);
    }
    forall a: KmsArn.KeyArn | KmsArn.ColonFree(a) && KmsArn.Compose(a) == arn && a.region != "" && a.account != ""
      ensures KmsArn.RegionFromArn(arn).Ok?
    {
      KmsArn.RegionReaderAccepts(a);
    }
  }

  // ----- wrapping and unwrapping the private key -----

  function EncryptPrivateKey(w: World, dataKey: Bytes, nonce: Bytes12, privateKey: Bytes): Result<Bytes, Error> {
    if SupportedKeyLength(dataKey) then Ok(w.seal(dataKey, nonce, privateKey)) else Err(BadDataKeyLength)
  }

  function DecryptPrivateKey(w: World, dataKey: Bytes, nonce: Bytes12, sealed: Bytes): Result<Bytes, Error> {
    if !SupportedKeyLength(dataKey) then Err(BadDataKeyLength)
    else match w.open(dataKey, nonce, sealed)
      case None => Err(DecryptFailed)
      case Some(text) => Ok(text)
  }

  /** Unwraps a package with one KMS key; `up` says whether credentials and KMS answer at this moment. */
  function RestoreFromPackage(w: World, up: bool, arn: string, context: Context, p: RecoveryPackage, expected: Bytes32)
    : Result<(), Error>
  {
    if p.version != KEY_MATERIAL_VERSION then Err(UnsupportedPackage)
    else match (Base64.Decode(p.encryptedDataKeyBase64), Base64.Decode(p.encryptedPrivateKeyBase64),
                DecodeBytes12(p.privateKeyNonceBase64))
      case (None, _, _) => Err(BadBase64)
      case (_, None, _) => Err(BadBase64)
      case (_, _, Err(e)) => Err(e)
      case (Some(blob), Some(sealed), Ok(nonce)) =>
        if !up || w.kmsDecrypt(arn, context, blob).None? then Err(KmsFailed)
        else match DecryptPrivateKey(w, w.kmsDecrypt(arn, context, blob).value, nonce, sealed)
          case Err(e) => Err(e)
          case Ok(privateKey) =>
            if |privateKey| != 32 then Err(BadLength)
            else if w.publicKeyOf(privateKey) != expected then Err(KeyMismatch)
            else Ok(())
  }

  /** Data keys of 16 and 32 bytes are used, others refused, on both sides alike. */
  lemma DataKeyLengths(w: World, dataKey: Bytes, nonce: Bytes12, text: Bytes)
    ensures EncryptPrivateKey(w, dataKey, nonce, text).Ok? <==> |dataKey| == 16 || |dataKey| == 32
    ensures DecryptPrivateKey(w, dataKey, nonce, text)
            == if |dataKey| != 16 && |dataKey| != 32 then Err(BadDataKeyLength)
               else if w.open(dataKey, nonce, text) == None then Err(DecryptFailed)
               else Ok(w.open(dataKey, nonce, text).value)
    ensures Lawful(w) && (|dataKey| == 16 || |dataKey| == 32) ==>
              var sealed := EncryptPrivateKey(w, dataKey, nonce, text).value;
              DecryptPrivateKey(w, dataKey, nonce, sealed) == Ok(text)
  {
  }

  /** The package decrypts under this key and context to the given private key. */
  ghost predicate Unwraps(w: World, arn: string, context: Context, p: RecoveryPackage, privateKey: Bytes32) {
    exists blob: Bytes, nonce: Bytes12, dataKey: Bytes, sealed: Bytes ::
      && p == RecoveryPackage(2, Base64.Encode(blob), Base64.Encode(nonce), Base64.Encode(sealed))
      && w.kmsDecrypt(arn, context, blob) == Some(dataKey) && SupportedKeyLength(dataKey)
      && w.open(dataKey, nonce, sealed) == Some(privateKey)
  }

  /** Restoring from a package succeeds exactly when it unwraps to a private key of the expected public key. */
  lemma RestoreFromPackageExact(w: World, arn: string, context: Context, p: RecoveryPackage, expected: Bytes32)
    ensures RestoreFromPackage(w, true, arn, context, p, expected).Ok? <==>
            exists privateKey: Bytes32 :: Unwraps(w, arn, context, p, privateKey) && w.publicKeyOf(privateKey) == expected
    ensures RestoreFromPackage(w, false, arn, context, p, expected).Err?
  {
    hide Base64.Encode;
    hide Base64.Decode;
    if RestoreFromPackage(w, true, arn, context, p, expected).Ok? {
      var blob, sealed := Base64.Decode(p.encryptedDataKeyBase64).value, Base64.Decode(p.encryptedPrivateKeyBase64).value;
      var nonce := DecodeBytes12(p.privateKeyNonceBase64).value;
      Base64.EncodeDecode(p.encryptedDataKeyBase64);
      Base64.EncodeDecode(p.encryptedPrivateKeyBase64);
      Base64.EncodeDecode(p.privateKeyNonceBase64);
      var dataKey := w.kmsDecrypt(arn, context, blob).value;
      var privateKey: Bytes32 := w.open(dataKey, nonce, sealed).value;
      assert Unwraps(w, arn, context, p, privateKey);
    }
    if exists privateKey: Bytes32 :: Unwraps(w, arn, context, p, privateKey) && w.publicKeyOf(privateKey) == expected {
      var privateKey: Bytes32 :| Unwraps(w, arn, context, p, privateKey) && w.publicKeyOf(privateKey) == expected;
      UnwrapsRestores(w, arn, context, p, privateKey);
    }
  }

  lemma UnwrapsRestores(w: World, arn: string, context: Context, p: RecoveryPackage, privateKey: Bytes32)
    requires Unwraps(w, arn, context, p, privateKey)
    ensures RestoreFromPackage(w, true, arn, context, p, w.publicKeyOf(privateKey)) == Ok(())
  {
    hide Base64.Encode;
    hide Base64.Decode;
    var blob: Bytes, nonce: Bytes12, dataKey: Bytes, sealed: Bytes :|
      && p == RecoveryPackage(KEY_MATERIAL_VERSION, Base64.Encode(blob), Base64.Encode(nonce), Base64.Encode(sealed))
      && w.kmsDecrypt(arn, context, blob) == Some(dataKey) && SupportedKeyLength(dataKey)
      && w.open(dataKey, nonce, sealed) == Some(privateKey);
    Base64.DecodeEncode(blob);
    Base64.DecodeEncode(nonce);
    Base64.DecodeEncode(sealed);
  }

  /** The package built from a generated data key; the caller has checked the length of the data key. */
  function BuildPackage(w: World, plain: Bytes, blob: Bytes, nonce: Bytes12, privateKey: Bytes32): RecoveryPackage
    requires SupportedKeyLength(plain)
  {
    RecoveryPackage(KEY_MATERIAL_VERSION, Base64.Encode(blob), Base64.Encode(nonce),
                    Base64.Encode(EncryptPrivateKey(w, plain, nonce, privateKey).value))
  }

  /** A package built from a data key that KMS decrypts back is restorable, for either key length. */
  lemma BuiltPackageRestores(w: World, arn: string, context: Context, plain: Bytes, blob: Bytes, nonce: Bytes12,
                             privateKey: Bytes32)
    requires Lawful(w) && SupportedKeyLength(plain) && w.kmsDecrypt(arn, context, blob) == Some(plain)
    ensures var p := BuildPackage(w, plain, blob, nonce, privateKey);
            RestoreFromPackage(w, true, arn, context, p, w.publicKeyOf(privateKey)) == Ok(())
  {
    var p := BuildPackage(w, plain, blob, nonce, privateKey);
    var sealed := w.seal(plain, nonce, privateKey);
    assert w.open(plain, nonce, sealed) == Some(privateKey);
    assert Unwraps(w, arn, context, p, privateKey);
    UnwrapsRestores(w, arn, context, p, privateKey);
  }

  // ----- the documents that initialisation writes -----

  function PublicDocumentOf(w: World, publicKey: Bytes32): PublicKeyDocument {
    PublicKeyDocument(KEY_MATERIAL_VERSION, PRIVATE_KEY_ALGORITHM, Base64.Encode(publicKey), Sha256Hex(w, publicKey))
  }

  function PublicBody(w: World, publicKey: Bytes32): Bytes {
    w.publicKeys.render(PublicDocumentOf(w, publicKey))
  }

  function PublicObjectKey(w: World, prefix: string, publicKey: Bytes32): string {
    ObjectNames.Render(ObjectNames.Public(prefix, Sha256Hex(w, publicKey)))
  }

  function ManifestKey(prefix: string): string {
    ObjectNames.Render(ObjectNames.Manifest(prefix))
  }

  function ManifestOf(w: World, prefix: string, publicKey: Bytes32, references: seq<RecoveryReference>): Manifest {
    Manifest(KEY_MATERIAL_VERSION, RECOVERY_POLICY, Sha256Hex(w, publicKey), PRIVATE_KEY_ALGORITHM,
             PRIVATE_KEY_ENCRYPTION,
             ObjectReference(PublicObjectKey(w, prefix, publicKey), Sha256Hex(w, PublicBody(w, publicKey))),
             references)
  }

  lemma WrittenPublicDocumentValidates(w: World, publicKey: Bytes32, prefix: string, references: seq<RecoveryReference>)
    ensures ValidatePublicDocument(w, PublicDocumentOf(w, publicKey), ManifestOf(w, prefix, publicKey, references))
            == Ok(publicKey)
  {
    Base64.DecodeEncode(publicKey);
  }

  /**
   * A written manifest is accepted exactly for two references, and an accepted manifest can differ from a written one
   * only in its fingerprint and in the objects that it names.
   */
  lemma WrittenManifestValidates(w: World, prefix: string, publicKey: Bytes32, references: seq<RecoveryReference>, m: Manifest)
    ensures ValidateManifest(ManifestOf(w, prefix, publicKey, references)).Ok? <==> |references| == 2
    ensures var m := ManifestOf(w, prefix, publicKey, references);
            && m.version == 2 && m.recoveryPolicy == "any-one"
            && m.privateKeyAlgorithm == "ED25519" && m.privateKeyEncryption == "AES-GCM"
    ensures ValidateManifest(m).Ok? ==>
              m == ManifestOf(w, prefix, publicKey, m.recoveryObjects)
                   .(keyFingerprint := m.keyFingerprint, publicKey := m.publicKey)
  {
  }

  /** The public document pins the key: equal bodies carry equal public keys. */
  lemma PublicBodyInjective(w: World, a: Bytes32, b: Bytes32)
    requires Lawful(w) && PublicBody(w, a) == PublicBody(w, b)
    ensures a == b
  {
    assert w.publicKeys.parse(PublicBody(w, a)) == Some(PublicDocumentOf(w, a));
    assert w.publicKeys.parse(PublicBody(w, b)) == Some(PublicDocumentOf(w, b));
    Base64.DecodeEncode(a);
    Base64.DecodeEncode(b);
  }

  /**
   * A public document is accepted exactly if it is the one written for a key, and the digest of that key is the
   * manifest's fingerprint; what is returned is that key.
   */
  lemma AcceptedPublicDocument(w: World, d: PublicKeyDocument, m: Manifest, publicKey: Bytes32)
    ensures ValidatePublicDocument(w, d, m) == Ok(publicKey) <==>
            && d == PublicKeyDocument(2, "ED25519", Base64.Encode(publicKey), Sha256Hex(w, publicKey))
            && Sha256Hex(w, publicKey) == m.keyFingerprint
  {
    hide Base64.Encode;
    hide Base64.Decode;
    if Base64.Decode(d.publicKeyBase64).Some? {
      Base64.EncodeDecode(d.publicKeyBase64);
    }
    Base64.DecodeEncode(publicKey);
  }
}
