/** Restoring the key: the steps of a serving enclave as functions of its session, and what they guarantee. */
module Restore {
  import opened Basics
  import opened KeyMaterial
  import opened Commit
  import opened Retry
  import Broker
  import Base64

  /** An enclave process and the broker it talks to. */
  datatype Site = Site(env: Env, config: Broker.Config, peerCid: Option<nat>)

  // ----- one request through the broker -----

  function ClientLoad(site: Site, st: Session, bucket: string, key: string): (Session, Result<Option<Bytes>, Error>) {
    var e := site.env;
    var fate := e.climate.fate(st.ops, Call(key));
    var st1 := Turn(e, st);
    if !fate.Answered? then (st1, Err(Transport))
    else if Broker.Dispatch(site.config, Broker.Connection(site.peerCid, Broker.LoadObject(bucket, key))) != Broker.Load(key)
    then (st1, Err(Rejected))
    else LoadRun(e, st1, key, 1)
  }

  lemma ClientLoadMeaning(site: Site, st: Session, bucket: string, key: string)
    ensures var (st1, r) := ClientLoad(site, st, bucket, key);
            && Follows(site.env, st, st1) && Sourced(site.env, st, st1, {})
            && Extends(st.sys.store, st1.sys.store)
            && (r.Ok? ==> r.value == Lookup(st1.sys.store, key))
  {
    hide Turn;
    hide LoadRun;
    hide Follows;
    hide Sourced;
    var e, own: set<Action> := site.env, {};
    var st1, end := Turn(e, st), ClientLoad(site, st, bucket, key).0;
    TurnFollows(e, st, st.gets, st.puts, st.sleptMs, own);
    LoadMeaning(e, st1, key, 1);
    LoadFollows(e, st1, key, 1, own);
    FollowsTrans(e, st, st1, LoadRun(e, st1, key, 1).0, own);
    ContinuationGrows(e, st, end);
  }

  /** A load succeeds exactly if it is answered, passes the broker's gates, and the broker's own load succeeds. */
  lemma ClientLoadExact(site: Site, st: Session, bucket: string, key: string)
    ensures var e, c := site.env, site.config;
            ClientLoad(site, st, bucket, key).1.Ok? <==>
              && e.climate.fate(st.ops, Call(key)).Answered?
              && (c.allowedCid == None || site.peerCid == c.allowedCid)
              && bucket == c.settings.bucket && c.settings.prefix + "/" <= key
              && LoadRun(e, Turn(e, st), key, 1).1.Ok?
  {
    hide Turn;
    hide LoadRun;
  }

  // ----- one key -----

  /** The package is well formed enough for KMS to be asked. */
  predicate AsksKms(p: RecoveryPackage) {
    && p.version == KEY_MATERIAL_VERSION && Base64.Decode(p.encryptedDataKeyBase64).Some?
    && Base64.Decode(p.encryptedPrivateKeyBase64).Some? && DecodeBytes12(p.privateKeyNonceBase64).Ok?
  }

  function TryPackage(e: Env, st: Session, arn: string, context: Context, p: RecoveryPackage, expected: Bytes32)
    : (Session, Result<(), Error>)
  {
    var up := e.climate.fate(st.ops, DecryptKey(arn)).Answered?;
    (if AsksKms(p) then Turn(e, st) else st, RestoreFromPackage(e.w, up, arn, context, p, expected))
  }

  function FindReference(references: seq<RecoveryReference>, arn: string): (found: Option<RecoveryReference>)
    ensures found.Some? ==> found.value in references && found.value.kmsKeyArn == arn
    ensures found.None? ==> forall r :: r in references ==> r.kmsKeyArn != arn
  {
    if references == [] then None
    else if references[0].kmsKeyArn == arn then Some(references[0])
    else FindReference(references[1..], arn)
  }

  /** The attempt with key `i` of the settings. */
  function AttemptKey(site: Site, settings: Settings, m: Manifest, expected: Bytes32, st: Session, i: nat)
    : (Session, Result<(), Error>)
    requires i < |settings.kmsKeys|
  {
    var arn := settings.kmsKeys[i].arn;
    match FindReference(m.recoveryObjects, arn)
    case None => (st, Err(NoReference))
    case Some(reference) =>
      var (st1, loaded) := ClientLoad(site, st, settings.bucket, reference.objectKey);
      match loaded
      case Err(e) => (st1, Err(e))
      case Ok(None) => (st1, Err(ObjectMissing))
      case Ok(Some(body)) => AttemptBody(site.env, st1, arn, settings.context, reference, body, expected)
  }

  function AttemptBody(e: Env, st: Session, arn: string, context: Context, reference: RecoveryReference, body: Bytes,
                       expected: Bytes32): (Session, Result<(), Error>)
  {
    if VerifySha256(e.w, body, reference.sha256).Err? then (st, Err(HashMismatch))
    else match e.w.packages.parse(body)
      case None => (st, Err(BadJson))
      case Some(p) => TryPackage(e, st, arn, context, p, expected)
  }

  // ----- the fallback loop -----

  function RestoreLoop(site: Site, settings: Settings, m: Manifest, expected: Bytes32, st: Session, i: nat,
                       failures: seq<(string, Error)>): (Session, Result<KeyPair, Error>)
    requires i <= |settings.kmsKeys|
    decreases |settings.kmsKeys| - i
  {
    if i == |settings.kmsKeys| then (st, Err(AllFailed(failures)))
    else
      var arn := settings.kmsKeys[i].arn;
      var (st1, r) := AttemptKey(site, settings, m, expected, st, i);
      match r
      case Ok(_) => (st1, Ok(KeyPair(expected, m.keyFingerprint, arn)))
      case Err(e) => RestoreLoop(site, settings, m, expected, st1, i + 1, failures + [(arn, e)])
  }

  /** The session after attempting the first `i` keys, whatever their outcomes. */
  function After(site: Site, settings: Settings, m: Manifest, expected: Bytes32, st: Session, i: nat): Session
    requires i <= |settings.kmsKeys|
  {
    if i == 0 then st
    else AttemptKey(site, settings, m, expected, After(site, settings, m, expected, st, i - 1), i - 1).0
  }

  /** The outcome of the attempt with key `i` made right after those before it. */
  function Outcome(site: Site, settings: Settings, m: Manifest, expected: Bytes32, st: Session, i: nat)
    : Result<(), Error>
    requires i < |settings.kmsKeys|
  {
    AttemptKey(site, settings, m, expected, After(site, settings, m, expected, st, i), i).1
  }

  /** Attempts before `k` all fail. */
  ghost predicate FailBefore(site: Site, settings: Settings, m: Manifest, expected: Bytes32, st: Session, k: nat)
    requires k <= |settings.kmsKeys|
  {
    forall j :: 0 <= j < k ==> Outcome(site, settings, m, expected, st, j).Err?
  }

  function FailuresBefore(site: Site, settings: Settings, m: Manifest, expected: Bytes32, st: Session, k: nat)
    : (failures: seq<(string, Error)>)
    requires k <= |settings.kmsKeys| && FailBefore(site, settings, m, expected, st, k)
    ensures |failures| == k
    ensures forall j :: 0 <= j < k ==>
              failures[j] == (settings.kmsKeys[j].arn, Outcome(site, settings, m, expected, st, j).error)
  {
    if k == 0 then []
    else FailuresBefore(site, settings, m, expected, st, k - 1)
         + [(settings.kmsKeys[k - 1].arn, Outcome(site, settings, m, expected, st, k - 1).error)]
  }

  /** What the loop must do, without saying how. */
  ghost predicate LoopSpec(site: Site, settings: Settings, m: Manifest, expected: Bytes32, st: Session,
                           end: Session, r: Result<KeyPair, Error>)
  {
    if FailBefore(site, settings, m, expected, st, |settings.kmsKeys|) then
      && end == After(site, settings, m, expected, st, |settings.kmsKeys|)
      && r == Err(AllFailed(FailuresBefore(site, settings, m, expected, st, |settings.kmsKeys|)))
    else
      exists k ::
        && 0 <= k < |settings.kmsKeys| && FailBefore(site, settings, m, expected, st, k)
        && Outcome(site, settings, m, expected, st, k).Ok?
        && end == After(site, settings, m, expected, st, k + 1)
        && r == Ok(KeyPair(expected, m.keyFingerprint, settings.kmsKeys[k].arn))
  }

  lemma {:induction false} LoopFrom(site: Site, settings: Settings, m: Manifest, expected: Bytes32, st: Session, i: nat)
    requires i <= |settings.kmsKeys| && FailBefore(site, settings, m, expected, st, i)
    ensures var (end, r) := RestoreLoop(site, settings, m, expected, After(site, settings, m, expected, st, i), i,
                                        FailuresBefore(site, settings, m, expected, st, i));
            LoopSpec(site, settings, m, expected, st, end, r)
    decreases |settings.kmsKeys| - i
  {
    hide AttemptKey;
    if i < |settings.kmsKeys| {
      if Outcome(site, settings, m, expected, st, i).Err? {
        assert FailBefore(site, settings, m, expected, st, i + 1);
        LoopFrom(site, settings, m, expected, st, i + 1);
      } else {
        assert !FailBefore(site, settings, m, expected, st, |settings.kmsKeys|);
      }
    }
  }

  /**
   * The loop refines its specification: success carries the least index, in settings order, whose attempt succeeds
   * and the session ends with that attempt, so nothing is issued for later keys; otherwise every key is attempted
   * once and the error lists exactly one failure per key, in order.
   */
  lemma RestoreLoopMeetsSpec(site: Site, settings: Settings, m: Manifest, expected: Bytes32, st: Session)
    ensures var (end, r) := RestoreLoop(site, settings, m, expected, st, 0, []);
            LoopSpec(site, settings, m, expected, st, end, r)
  {
    LoopFrom(site, settings, m, expected, st, 0);
  }

  // ----- the whole restore -----

  function LoadPublicKey(site: Site, settings: Settings, m: Manifest, st: Session): (Session, Result<Bytes32, Error>) {
    var w := site.env.w;
    var (st1, loaded) := ClientLoad(site, st, settings.bucket, m.publicKey.objectKey);
    match loaded
    case Err(e) => (st1, Err(e))
    case Ok(None) => (st1, Err(ObjectMissing))
    case Ok(Some(body)) =>
      if VerifySha256(w, body, m.publicKey.sha256).Err? then (st1, Err(HashMismatch))
      else match w.publicKeys.parse(body)
        case None => (st1, Err(BadJson))
        case Some(document) => (st1, ValidatePublicDocument(w, document, m))
  }

  function LoadManifest(site: Site, settings: Settings, st: Session): (Session, Result<Manifest, Error>) {
    var w := site.env.w;
    var (st1, loaded) := ClientLoad(site, st, settings.bucket, ManifestKey(settings.prefix));
    match loaded
    case Err(e) => (st1, Err(e))
    case Ok(None) => (st1, Err(ManifestMissing))
    case Ok(Some(body)) =>
      match w.manifests.parse(body)
      case None => (st1, Err(BadJson))
      case Some(m) => if ValidateManifest(m).Ok? then (st1, Ok(m)) else (st1, Err(UnsupportedManifest))
  }

  function RestoreRun(site: Site, settings: Settings, st: Session): (Session, Result<KeyPair, Error>) {
    var (st1, manifest) := LoadManifest(site, settings, st);
    match manifest
    case Err(e) => (st1, Err(e))
    case Ok(m) =>
      var (st2, publicKey) := LoadPublicKey(site, settings, m, st1);
      match publicKey
      case Err(e) => (st2, Err(e))
      case Ok(expected) => RestoreLoop(site, settings, m, expected, st2, 0, [])
  }

  // ----- sessions only move forward -----

  /** The later session continues the earlier one by actions of the surroundings only. */
  ghost predicate Watches(e: Env, earlier: Session, later: Session) {
    Follows(e, earlier, later) && Sourced(e, earlier, later, {}) && Extends(earlier.sys.store, later.sys.store)
  }

  lemma WatchesTrans(e: Env, a: Session, b: Session, c: Session)
    requires Watches(e, a, b) && Watches(e, b, c)
    ensures Watches(e, a, c)
  {
    hide Follows;
    hide Sourced;
    FollowsTrans(e, a, b, c, {});
  }

  lemma WatchesSame(e: Env, a: Session)
    ensures Watches(e, a, a)
  {
    assert a.trace[|a.trace|..] == [];
  }

  lemma TurnWatches(e: Env, st: Session)
    ensures Watches(e, st, Turn(e, st))
  {
    hide Follows;
    hide Sourced;
    hide Turn;
    TurnFollows(e, st, st.gets, st.puts, st.sleptMs, {});
    ContinuationGrows(e, st, Turn(e, st));
  }

  /** A successful attempt found the referenced package intact and unwrapped it, and it still stands at the end. */
  lemma AttemptMeaning(site: Site, settings: Settings, m: Manifest, expected: Bytes32, st: Session, i: nat)
    requires i < |settings.kmsKeys|
    ensures var (st1, r) := AttemptKey(site, settings, m, expected, st, i);
            && Watches(site.env, st, st1)
            && (r.Ok? ==>
                  var reference := FindReference(m.recoveryObjects, settings.kmsKeys[i].arn);
                  reference.Some? && Recoverable(site.env.w, st1.sys.store, reference.value, settings.context, expected))
  {
    hide ClientLoad;
    hide Watches;
    hide Turn;
    hide RestoreFromPackage;
    var e, arn := site.env, settings.kmsKeys[i].arn;
    WatchesSame(e, st);
    var found := FindReference(m.recoveryObjects, arn);
    if found.Some? {
      var (st1, loaded) := ClientLoad(site, st, settings.bucket, found.value.objectKey);
      ClientLoadWatches(site, st, settings.bucket, found.value.objectKey);
      WatchesSame(e, st1);
      TurnWatches(e, st1);
      var end := AttemptKey(site, settings, m, expected, st, i).0;
      assert Watches(e, st1, end);
      WatchesTrans(e, st, st1, end);
      if AttemptKey(site, settings, m, expected, st, i).1.Ok? {
        BodyRecoverable(e, st1, settings.context, found.value, loaded.value.value, expected);
        WatchesGrows(e, st1, end);
      }
    }
  }

  lemma WatchesGrows(e: Env, a: Session, b: Session)
    requires Watches(e, a, b)
    ensures Extends(a.sys.store, b.sys.store)
  {
  }

  lemma ClientLoadWatches(site: Site, st: Session, bucket: string, key: string)
    ensures var (st1, r) := ClientLoad(site, st, bucket, key);
            Watches(site.env, st, st1) && (r.Ok? ==> r.value == Lookup(st1.sys.store, key))
  {
    hide ClientLoad;
    hide Follows;
    hide Sourced;
    ClientLoadMeaning(site, st, bucket, key);
  }

  lemma BodyRecoverable(e: Env, st: Session, context: Context, reference: RecoveryReference, body: Bytes, expected: Bytes32)
    requires Lookup(st.sys.store, reference.objectKey) == Some(body)
    requires AttemptBody(e, st, reference.kmsKeyArn, context, reference, body, expected).1.Ok?
    ensures Recoverable(e.w, st.sys.store, reference, context, expected)
  {
    hide Turn;
  }

  lemma {:induction false} AfterMeaning(site: Site, settings: Settings, m: Manifest, expected: Bytes32, st: Session, i: nat)
    requires i <= |settings.kmsKeys|
    ensures Watches(site.env, st, After(site, settings, m, expected, st, i))
  {
    hide Watches;
    hide AttemptKey;
    if i == 0 {
      WatchesSame(site.env, st);
    } else {
      AfterMeaning(site, settings, m, expected, st, i - 1);
      var before := After(site, settings, m, expected, st, i - 1);
      AttemptWatches(site, settings, m, expected, before, i - 1);
      WatchesTrans(site.env, st, before, After(site, settings, m, expected, st, i));
    }
  }

  lemma AttemptWatches(site: Site, settings: Settings, m: Manifest, expected: Bytes32, st: Session, i: nat)
    requires i < |settings.kmsKeys|
    ensures Watches(site.env, st, AttemptKey(site, settings, m, expected, st, i).0)
  {
    hide Watches;
    hide AttemptKey;
    AttemptMeaning(site, settings, m, expected, st, i);
  }

  // ----- soundness -----

  /** The key pair names a configured key whose package, referenced by the published manifest, unwraps to this key. */
  ghost predicate Justified(w: World, store: Store, settings: Settings, pair: KeyPair) {
    && PublishedKey(w, store, settings.prefix) == Some(pair.publicKey)
    && pair.fingerprint == Sha256Hex(w, pair.publicKey)
    && (exists i :: 0 <= i < |settings.kmsKeys| && settings.kmsKeys[i].arn == pair.kmsKeyArn)
    && var m := PublishedManifest(w, store, settings.prefix).value;
    && pair.fingerprint == m.keyFingerprint
    && FindReference(m.recoveryObjects, pair.kmsKeyArn).Some?
    && Recoverable(w, store, FindReference(m.recoveryObjects, pair.kmsKeyArn).value, settings.context, pair.publicKey)
  }

  lemma LoadManifestMeaning(site: Site, settings: Settings, st: Session)
    ensures var (st1, r) := LoadManifest(site, settings, st);
            && Watches(site.env, st, st1)
            && (r.Ok? ==> PublishedManifest(site.env.w, st1.sys.store, settings.prefix) == Some(r.value))
  {
    hide ClientLoad;
    hide Watches;
    hide ManifestKey;
    ClientLoadWatches(site, st, settings.bucket, ManifestKey(settings.prefix));
  }

  lemma LoadPublicKeyMeaning(site: Site, settings: Settings, m: Manifest, st: Session)
    requires PublishedManifest(site.env.w, st.sys.store, settings.prefix) == Some(m)
    ensures var (st1, r) := LoadPublicKey(site, settings, m, st);
            && Watches(site.env, st, st1)
            && PublishedManifest(site.env.w, st1.sys.store, settings.prefix) == Some(m)
            && (r.Ok? ==>
                  && PublishedKey(site.env.w, st1.sys.store, settings.prefix) == Some(r.value)
                  && Sha256Hex(site.env.w, r.value) == m.keyFingerprint)
  {
    hide ClientLoad;
    hide ManifestKey;
    ClientLoadWatches(site, st, settings.bucket, m.publicKey.objectKey);
    hide Watches;
    var (st1, loaded) := ClientLoad(site, st, settings.bucket, m.publicKey.objectKey);
    WatchesGrows(site.env, st, st1);
  }

  lemma LoopMeaning(site: Site, settings: Settings, m: Manifest, expected: Bytes32, st: Session)
    ensures var (end, r) := RestoreLoop(site, settings, m, expected, st, 0, []);
            && Watches(site.env, st, end)
            && (r.Ok? ==>
                  && r.value.publicKey == expected && r.value.fingerprint == m.keyFingerprint
                  && (exists i :: 0 <= i < |settings.kmsKeys| && settings.kmsKeys[i].arn == r.value.kmsKeyArn)
                  && var reference := FindReference(m.recoveryObjects, r.value.kmsKeyArn);
                  reference.Some? && Recoverable(site.env.w, end.sys.store, reference.value, settings.context, expected))
  {
    hide Watches;
    hide AttemptKey;
    hide RestoreLoop;
    hide Recoverable;
    RestoreLoopMeetsSpec(site, settings, m, expected, st);
    var (end, r) := RestoreLoop(site, settings, m, expected, st, 0, []);
    var n := |settings.kmsKeys|;
    if FailBefore(site, settings, m, expected, st, n) {
      AfterMeaning(site, settings, m, expected, st, n);
    } else {
      var k :| && 0 <= k < n && FailBefore(site, settings, m, expected, st, k)
               && Outcome(site, settings, m, expected, st, k).Ok?
               && end == After(site, settings, m, expected, st, k + 1)
               && r == Ok(KeyPair(expected, m.keyFingerprint, settings.kmsKeys[k].arn));
      AfterMeaning(site, settings, m, expected, st, k + 1);
      AttemptMeaning(site, settings, m, expected, After(site, settings, m, expected, st, k), k);
    }
  }

  /**
   * Soundness, for any contents of the store and any interference: success means some configured key's package
   * unwrapped to a private key of the returned public key, which is the published one and matches the fingerprint.
   */
  lemma RestoreSound(site: Site, settings: Settings, st: Session)
    ensures var (end, r) := RestoreRun(site, settings, st);
            && Watches(site.env, st, end)
            && (r.Ok? ==> Justified(site.env.w, end.sys.store, settings, r.value))
  {
    hide Watches;
    hide LoadManifest;
    hide LoadPublicKey;
    hide RestoreLoop;
    hide Recoverable;
    hide PublishedManifest;
    hide PublishedKey;
    var e, w := site.env, site.env.w;
    var (st1, manifest) := LoadManifest(site, settings, st);
    LoadManifestMeaning(site, settings, st);
    if manifest.Ok? {
      var m := manifest.value;
      var (st2, publicKey) := LoadPublicKey(site, settings, m, st1);
      LoadPublicKeyMeaning(site, settings, m, st1);
      WatchesTrans(e, st, st1, st2);
      if publicKey.Ok? {
        var (end, r) := RestoreLoop(site, settings, m, publicKey.value, st2, 0, []);
        LoopMeaning(site, settings, m, publicKey.value, st2);
        WatchesTrans(e, st, st2, end);
        WatchesGrows(e, st2, end);
        PublishedKeyStable(w, st2.sys.store, end.sys.store, settings.prefix);
        PublishedManifestStable(w, st2.sys.store, end.sys.store, settings.prefix);
      }
    }
  }

  lemma PublishedManifestStable(w: World, earlier: Store, later: Store, prefix: string)
    requires Extends(earlier, later) && PublishedManifest(w, earlier, prefix).Some?
    ensures PublishedManifest(w, later, prefix) == PublishedManifest(w, earlier, prefix)
  {
  }

  /** The private key behind a justified pair exists: the package really wraps it. */
  lemma JustifiedPrivateKey(w: World, store: Store, settings: Settings, pair: KeyPair)
    requires Justified(w, store, settings, pair)
    ensures exists package: RecoveryPackage, privateKey: Bytes32 ::
              Unwraps(w, pair.kmsKeyArn, settings.context, package, privateKey)
              && w.publicKeyOf(privateKey) == pair.publicKey
  {
    var reference := FindReference(PublishedManifest(w, store, settings.prefix).value.recoveryObjects, pair.kmsKeyArn).value;
    assert Recoverable(w, store, reference, settings.context, pair.publicKey);
    var package := w.packages.parse(store[reference.objectKey]).value;
    RestoreFromPackageExact(w, pair.kmsKeyArn, settings.context, package, pair.publicKey);
  }

  /**
   * Stability: over a history in which objects are only ever added, every successful restore under a prefix, with
   * whatever settings, climate and broker, returns the same public key.
   */
  lemma RestoresAgree(a: Site, b: Site, first: Settings, second: Settings, st: Session, later: Session)
    requires a.env.w == b.env.w && first.prefix == second.prefix
    requires Extends(RestoreRun(a, first, st).0.sys.store, RestoreRun(b, second, later).0.sys.store)
    requires RestoreRun(a, first, st).1.Ok? && RestoreRun(b, second, later).1.Ok?
    ensures RestoreRun(a, first, st).1.value.publicKey == RestoreRun(b, second, later).1.value.publicKey
  {
    hide RestoreRun;
    hide PublishedKey;
    RestoreSound(a, first, st);
    RestoreSound(b, second, later);
    PublishedKeyStable(a.env.w, RestoreRun(a, first, st).0.sys.store, RestoreRun(b, second, later).0.sys.store,
                       first.prefix);
  }

  // ----- availability -----

  /** The broker answers requests for this object whenever they are made, and its connections to S3 recover. */
  ghost predicate Reachable(climate: Climate, key: string) {
    (forall n :: climate.fate(n, Call(key)) == Answered) && Recovering(climate, GetObject(key))
  }

  ghost predicate KmsUp(climate: Climate, arn: string) {
    forall n :: climate.fate(n, DecryptKey(arn)) == Answered
  }

  /** The broker serves this enclave and was started for the same bucket and prefix. */
  predicate Served(site: Site, settings: Settings) {
    && Broker.PeerAllowed(site.config, site.peerCid)
    && site.config.settings.bucket == settings.bucket && site.config.settings.prefix == settings.prefix
  }

  lemma ReachableLoad(site: Site, settings: Settings, st: Session, key: string)
    requires Served(site, settings) && Reachable(site.env.climate, key) && Below(settings.prefix, key)
    ensures ClientLoad(site, st, settings.bucket, key).1
            == Ok(Lookup(ClientLoad(site, st, settings.bucket, key).0.sys.store, key))
  {
    hide Turn;
    hide LoadRun;
    hide Recovering;
    RecoveringLoad(site.env, Turn(site.env, st), key);
  }

  /** The attempt with a working key succeeds whenever it is made. */
  lemma WorkingKeySucceeds(site: Site, settings: Settings, m: Manifest, publicKey: Bytes32, st: Session, i: nat)
    requires i < |settings.kmsKeys| && Served(site, settings)
    requires var r := FindReference(m.recoveryObjects, settings.kmsKeys[i].arn);
             && r.Some? && Below(settings.prefix, r.value.objectKey)
             && Reachable(site.env.climate, r.value.objectKey) && KmsUp(site.env.climate, settings.kmsKeys[i].arn)
             && Recoverable(site.env.w, st.sys.store, r.value, settings.context, publicKey)
    ensures AttemptKey(site, settings, m, publicKey, st, i).1.Ok?
  {
    hide Turn;
    hide ClientLoad;
    hide RestoreFromPackage;
    var r := FindReference(m.recoveryObjects, settings.kmsKeys[i].arn).value;
    ReachableLoad(site, settings, st, r.objectKey);
    ClientLoadMeaning(site, st, settings.bucket, r.objectKey);
    var st1 := ClientLoad(site, st, settings.bucket, r.objectKey).0;
    assert st1.sys.store[r.objectKey] == st.sys.store[r.objectKey];
  }

  lemma WorkingLoopSucceeds(site: Site, settings: Settings, m: Manifest, publicKey: Bytes32, st: Session, i: nat)
    requires i < |settings.kmsKeys| && Served(site, settings)
    requires var r := FindReference(m.recoveryObjects, settings.kmsKeys[i].arn);
             && r.Some? && Below(settings.prefix, r.value.objectKey)
             && Reachable(site.env.climate, r.value.objectKey) && KmsUp(site.env.climate, settings.kmsKeys[i].arn)
             && Recoverable(site.env.w, st.sys.store, r.value, settings.context, publicKey)
    ensures RestoreLoop(site, settings, m, publicKey, st, 0, []).1.Ok?
  {
    hide AttemptKey;
    hide RestoreLoop;
    hide Recoverable;
    hide Watches;
    RestoreLoopMeetsSpec(site, settings, m, publicKey, st);
    var before := After(site, settings, m, publicKey, st, i);
    AfterMeaning(site, settings, m, publicKey, st, i);
    WatchesGrows(site.env, st, before);
    var r := FindReference(m.recoveryObjects, settings.kmsKeys[i].arn).value;
    RecoverableStable(site.env.w, st.sys.store, before.sys.store, r, settings.context, publicKey);
    WorkingKeySucceeds(site, settings, m, publicKey, before, i);
    assert Outcome(site, settings, m, publicKey, st, i).Ok?;
  }

  lemma RecoverableStable(w: World, earlier: Store, later: Store, r: RecoveryReference, context: Context, publicKey: Bytes32)
    requires Extends(earlier, later) && Recoverable(w, earlier, r, context, publicKey)
    ensures Recoverable(w, later, r, context, publicKey)
  {
  }

  lemma PublicKeyAvailable(site: Site, settings: Settings, m: Manifest, publicKey: Bytes32, st: Session)
    requires Served(site, settings)
    requires PublishedManifest(site.env.w, st.sys.store, settings.prefix) == Some(m)
    requires PublishedKey(site.env.w, st.sys.store, settings.prefix) == Some(publicKey)
    requires Below(settings.prefix, m.publicKey.objectKey) && Reachable(site.env.climate, m.publicKey.objectKey)
    ensures LoadPublicKey(site, settings, m, st).1 == Ok(publicKey)
  {
    hide ClientLoad;
    hide PublishedManifest;
    ReachableLoad(site, settings, st, m.publicKey.objectKey);
    ClientLoadMeaning(site, st, settings.bucket, m.publicKey.objectKey);
  }

  lemma ManifestAvailable(site: Site, settings: Settings, st: Session)
    requires Served(site, settings) && PublishedManifest(site.env.w, st.sys.store, settings.prefix).Some?
    requires Reachable(site.env.climate, ManifestKey(settings.prefix))
    ensures LoadManifest(site, settings, st).1 == Ok(PublishedManifest(site.env.w, st.sys.store, settings.prefix).value)
  {
    hide ClientLoad;
    assert Below(settings.prefix, ManifestKey(settings.prefix));
    hide ManifestKey;
    ReachableLoad(site, settings, st, ManifestKey(settings.prefix));
    ClientLoadMeaning(site, st, settings.bucket, ManifestKey(settings.prefix));
  }

  /** Without a manifest a serving process reports just that, and tries no key. */
  lemma MissingManifestIsReported(site: Site, settings: Settings, st: Session)
    requires Served(site, settings) && Reachable(site.env.climate, ManifestKey(settings.prefix))
    requires ManifestKey(settings.prefix) !in
             ClientLoad(site, st, settings.bucket, ManifestKey(settings.prefix)).0.sys.store
    ensures RestoreRun(site, settings, st)
            == (ClientLoad(site, st, settings.bucket, ManifestKey(settings.prefix)).0, Err(ManifestMissing))
  {
    hide ClientLoad;
    assert Below(settings.prefix, ManifestKey(settings.prefix));
    hide ManifestKey;
    ReachableLoad(site, settings, st, ManifestKey(settings.prefix));
  }

  /** The objects needed to restore with one key: manifest, public document and that key's package. */
  ghost predicate PathReachable(climate: Climate, m: Manifest, prefix: string, arn: string) {
    && Reachable(climate, ManifestKey(prefix)) && Reachable(climate, m.publicKey.objectKey)
    && (forall r :: r in m.recoveryObjects && r.kmsKeyArn == arn ==> Reachable(climate, r.objectKey))
    && KmsUp(climate, arn)
  }

  /**
   * Any one key suffices: with a complete key set in the store, settings that share one working ARN with the
   * committed ones restore exactly the committed key, whatever fails for the other key and whatever others do.
   */
  lemma AnyOneKeySuffices(site: Site, committed: Settings, settings: Settings, publicKey: Bytes32, st: Session,
                          i: nat, j: nat)
    requires CompleteKeySet(site.env.w, st.sys.store, committed, publicKey)
    requires settings.prefix == committed.prefix && settings.context == committed.context && Served(site, settings)
    requires i < |settings.kmsKeys| && j < |committed.kmsKeys| && settings.kmsKeys[i].arn == committed.kmsKeys[j].arn
    requires PathReachable(site.env.climate, PublishedManifest(site.env.w, st.sys.store, settings.prefix).value,
                           settings.prefix, settings.kmsKeys[i].arn)
    ensures var r := RestoreRun(site, settings, st).1;
            && r.Ok? && r.value.publicKey == publicKey && r.value.fingerprint == Sha256Hex(site.env.w, publicKey)
            && exists k :: 0 <= k < |settings.kmsKeys| && settings.kmsKeys[k].arn == r.value.kmsKeyArn
  {
    hide RestoreRun;
    hide PublishedKey;
    hide PublishedManifest;
    SharedReference(site.env.w, st.sys.store, committed, publicKey, settings, i, j);
    SharedKeyRestores(site, settings, publicKey, st, i);
  }

  /** The published manifest refers to a recoverable package for a shared ARN. */
  lemma SharedReference(w: World, store: Store, committed: Settings, publicKey: Bytes32, settings: Settings, i: nat, j: nat)
    requires CompleteKeySet(w, store, committed, publicKey)
    requires settings.prefix == committed.prefix && settings.context == committed.context
    requires i < |settings.kmsKeys| && j < |committed.kmsKeys| && settings.kmsKeys[i].arn == committed.kmsKeys[j].arn
    ensures SharedWith(w, store, settings, publicKey, i)
  {
    hide PublishedManifest;
    hide Recoverable;
    hide Below;
    hide PublishedKey;
    PublishedKeyHasManifest(w, store, settings.prefix);
    var m := PublishedManifest(w, store, settings.prefix).value;
    assert m.recoveryObjects == [m.recoveryObjects[0], m.recoveryObjects[1]];
    var found := FindReference(m.recoveryObjects, settings.kmsKeys[i].arn);
    assert m.recoveryObjects[j] in m.recoveryObjects;
    assert found.value == m.recoveryObjects[j];
  }

  lemma PublishedKeyHasManifest(w: World, store: Store, prefix: string)
    ensures PublishedKey(w, store, prefix).Some? ==> PublishedManifest(w, store, prefix).Some?
  {
    hide PublishedManifest;
  }

  ghost predicate SharedWith(w: World, store: Store, settings: Settings, publicKey: Bytes32, i: nat)
    requires i < |settings.kmsKeys|
  {
    && PublishedKey(w, store, settings.prefix) == Some(publicKey)
    && PublishedManifest(w, store, settings.prefix).Some?
    && var m := PublishedManifest(w, store, settings.prefix).value;
    && Below(settings.prefix, m.publicKey.objectKey)
    && var found := FindReference(m.recoveryObjects, settings.kmsKeys[i].arn);
    && found.Some? && Below(settings.prefix, found.value.objectKey)
    && Recoverable(w, store, found.value, settings.context, publicKey)
  }

  lemma SharedKeyRestores(site: Site, settings: Settings, publicKey: Bytes32, st: Session, i: nat)
    requires i < |settings.kmsKeys| && SharedWith(site.env.w, st.sys.store, settings, publicKey, i)
    requires Served(site, settings)
    requires PathReachable(site.env.climate, PublishedManifest(site.env.w, st.sys.store, settings.prefix).value,
                           settings.prefix, settings.kmsKeys[i].arn)
    ensures var r := RestoreRun(site, settings, st).1;
            && r.Ok? && r.value.publicKey == publicKey && r.value.fingerprint == Sha256Hex(site.env.w, publicKey)
            && exists k :: 0 <= k < |settings.kmsKeys| && settings.kmsKeys[k].arn == r.value.kmsKeyArn
  {
    hide LoadManifest;
    hide LoadPublicKey;
    hide RestoreLoop;
    hide Recoverable;
    hide PublishedKey;
    hide PublishedManifest;
    hide Reachable;
    hide Below;
    hide Watches;
    hide Served;
    var w := site.env.w;
    var m := PublishedManifest(w, st.sys.store, settings.prefix).value;
    var reference := FindReference(m.recoveryObjects, settings.kmsKeys[i].arn).value;
    assert Reachable(site.env.climate, reference.objectKey);
    var (st1, manifest) := LoadManifest(site, settings, st);
    ManifestAvailable(site, settings, st);
    LoadManifestMeaning(site, settings, st);
    WatchesGrows(site.env, st, st1);
    PublishedKeyStable(w, st.sys.store, st1.sys.store, settings.prefix);
    RecoverableStable(w, st.sys.store, st1.sys.store, reference, settings.context, publicKey);
    var (st2, loaded) := LoadPublicKey(site, settings, m, st1);
    PublicKeyAvailable(site, settings, m, publicKey, st1);
    LoadPublicKeyMeaning(site, settings, m, st1);
    WatchesGrows(site.env, st1, st2);
    RecoverableStable(w, st1.sys.store, st2.sys.store, reference, settings.context, publicKey);
    WorkingLoopSucceeds(site, settings, m, publicKey, st2, i);
    LoopMeaning(site, settings, m, publicKey, st2);
  }

  /** The same from the side of the protocol: it holds in every state of every run in which a manifest is visible. */
  lemma CommittedKeyIsAvailable(site: Site, actions: seq<Action>, work: Work, settings: Settings, st: Session, i: nat, j: nat)
    requires Lawful(site.env.w) && Trusted(actions) && st.sys == RunAll(site.env.w, EMPTY, actions)
    requires ManifestKey(settings.prefix) in st.sys.store && Committer(st.sys, settings.prefix) == Some(work)
    requires settings.context == work.settings.context && Served(site, settings)
    requires i < |settings.kmsKeys| && j < |work.settings.kmsKeys|
             && settings.kmsKeys[i].arn == work.settings.kmsKeys[j].arn
    requires PublishedManifest(site.env.w, st.sys.store, settings.prefix).Some? ==>
               PathReachable(site.env.climate, PublishedManifest(site.env.w, st.sys.store, settings.prefix).value,
                             settings.prefix, settings.kmsKeys[i].arn)
    ensures RestoreRun(site, settings, st).1.Ok?
    ensures RestoreRun(site, settings, st).1.value.publicKey == PublicKey(site.env.w, work)
  {
    hide RestoreRun;
    hide PathReachable;
    hide PublishedManifest;
    hide Recoverable;
    VisibleManifestIsComplete(site.env.w, actions, settings.prefix);
    AnyOneKeySuffices(site, work.settings, settings, PublicKey(site.env.w, work), st, i, j);
  }
}
