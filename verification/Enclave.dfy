/** The enclave program: the imperative form of initialising and restoring, and the process around them. */
module Enclave {
  import opened Basics
  import opened KeyMaterial
  import opened Commit
  import opened Retry
  import opened Restore
  import opened Initialise
  import Broker
  import KmsArn

  /** How a process ends its start-up: it exits after initialising, or goes on to serve gRPC. */
  datatype Started = Initialised(pair: KeyPair) | Serving(pair: KeyPair)

  // ----- the whole process as a function of its session -----

  /** The command line overrides the mode that the broker hands out. */
  function Override(settings: Settings, command: Option<string>): Result<Settings, Error> {
    match command
    case None => Ok(settings)
    case Some(name) =>
      if name == "init-key" then Ok(settings.(startupMode := InitKey))
      else if name == "serve" then Ok(settings.(startupMode := Serve))
      else Err(UnknownCommand)
  }

  /** Start-up with given settings. */
  function StartRun(site: Site, settings: Settings, seed: Bytes32, st: Session): (Session, Result<Started, Error>)
    requires !Running(site.env, st)
  {
    if ValidateConfiguration(settings).Err? then (st, Err(ValidateConfiguration(settings).error))
    else if settings.startupMode == InitKey then
      var (st1, r) := InitialiseRun(site, settings, seed, st);
      (st1, if r.Ok? then Ok(Initialised(r.value)) else Err(r.error))
    else
      var (st1, r) := RestoreRun(site, settings, st);
      (st1, if r.Ok? then Ok(Serving(r.value)) else Err(r.error))
  }

  function ProcessRun(site: Site, command: Option<string>, seed: Bytes32, st: Session): (Session, Result<Started, Error>)
    requires !Running(site.env, st)
  {
    var e := site.env;
    var fate := e.climate.fate(st.ops, FetchSettings);
    var st1 := Turn(e, st);
    TurnMine(e, st);
    if !fate.Answered? then (st1, Err(Transport))
    else if !Broker.Dispatch(site.config, Broker.Connection(site.peerCid, Broker.GetSettings)).SendSettings?
    then (st1, Err(Rejected))
    else match Override(site.config.settings, command)
      case Err(error) => (st1, Err(error))
      case Ok(settings) => StartRun(site, settings, seed, st1)
  }

  // ----- what the process guarantees -----

  /** This start-up was told, or left, to initialise, and its broker accepts writes. */
  predicate MayWrite(site: Site, command: Option<string>) {
    && Override(site.config.settings, command).Ok?
    && Override(site.config.settings, command).value.startupMode == InitKey
    && Writable(site)
  }

  lemma StartMeaning(site: Site, settings: Settings, seed: Bytes32, st: Session)
    requires !Running(site.env, st)
    ensures var (end, r) := StartRun(site, settings, seed, st); var e := site.env;
            && Progress(e, st, end, settings.startupMode == InitKey && Writable(site))
            && (r.Ok? && r.value.Initialised? ==>
                  && settings.startupMode == InitKey && Writable(site) && Running(e, end)
                  && Mine(e, end).phase == Committed && Mine(e, end).work.settings == settings
                  && r.value.pair.publicKey == PublicKey(e.w, Mine(e, end).work))
            && (r.Ok? && r.value.Serving? ==>
                  && settings.startupMode == Serve
                  && Justified(e.w, end.sys.store, settings, r.value.pair))
  {
    hide Progress;
    hide Watches;
    hide InitialiseRun;
    hide RestoreRun;
    hide Justified;
    hide ValidateConfiguration;
    hide ManifestKey;
    WatchesSame(site.env, st);
    ProgressWatch(site.env, st, st, settings.startupMode == InitKey && Writable(site));
    if ValidateConfiguration(settings).Ok? {
      if settings.startupMode == InitKey {
        InitialiseMeaning(site, settings, seed, st);
        if Writable(site) && ManifestKey(settings.prefix) in st.sys.store {
          ProgressMore(site.env, st, InitialiseRun(site, settings, seed, st).0);
        }
      } else {
        RestoreSound(site, settings, st);
        ProgressWatch(site.env, st, RestoreRun(site, settings, st).0, false);
      }
    }
  }

  /**
   * The process state machine. An unknown command ends the process after the settings request, before any S3 or KMS
   * operation. It reaches gRPC only in serve mode and after a restore that is justified by the store; initialising
   * always ends in exit, and only as the committed state of the protocol. A process that is not in init-key mode at
   * both ends, client and broker, writes nothing; overridden to init-key against a serve-mode broker it fails.
   */
  lemma ProcessMeaning(site: Site, command: Option<string>, seed: Bytes32, st: Session)
    requires !Running(site.env, st)
    ensures var (end, r) := ProcessRun(site, command, seed, st); var e := site.env;
            && Progress(e, st, end, MayWrite(site, command))
            && (command.Some? && command.value != "init-key" && command.value != "serve" ==>
                  r.Err? && end == Turn(e, st))
            && (r.Ok? ==> var settings := Override(site.config.settings, command).value;
                  && (r.value.Initialised? ==>
                        && MayWrite(site, command) && Running(e, end) && Mine(e, end).phase == Committed
                        && Mine(e, end).work.settings == settings
                        && r.value.pair.publicKey == PublicKey(e.w, Mine(e, end).work))
                  && (r.value.Serving? ==>
                        settings.startupMode == Serve && Justified(e.w, end.sys.store, settings, r.value.pair)))
            && (command == Some("init-key") && !Writable(site) ==> r.Err?)
            && (!e.climate.fate(st.ops, FetchSettings).Answered? || !Broker.PeerAllowed(site.config, site.peerCid)
                || (Override(site.config.settings, command).Ok?
                    && ValidateConfiguration(Override(site.config.settings, command).value).Err?) ==>
                  r.Err? && end == Turn(e, st))
  {
    hide ValidateConfiguration;
    hide Progress;
    hide Watches;
    hide Turn;
    hide InitialiseRun;
    hide RestoreRun;
    hide Justified;
    var e, writes := site.env, MayWrite(site, command);
    var st1 := Turn(e, st);
    TurnMine(e, st);
    ProgressWatch(e, st, st1, writes);
    var overridden := Override(site.config.settings, command);
    if overridden.Ok? {
      StartMeaning(site, overridden.value, seed, st1);
      ProgressTrans(e, st, st1, StartRun(site, overridden.value, seed, st1).0, writes);
    }
  }

  /**
   * What the commands do, in terms of the broker's settings: `serve` only ever restores and writes nothing, `init-key`
   * only ever initialises, no command leaves the choice to the broker, and any other command is an error.
   */
  lemma CommandsMean(site: Site, command: Option<string>, seed: Bytes32, st: Session)
    requires !Running(site.env, st)
    ensures var (end, r) := ProcessRun(site, command, seed, st); var mode := site.config.settings.startupMode;
            && (command == Some("serve") ==>
                  Progress(site.env, st, end, false) && (r.Ok? ==> r.value.Serving?))
            && (command == Some("init-key") ==> r.Ok? ==> r.value.Initialised?)
            && (command == None ==> r.Ok? ==> (r.value.Initialised? <==> mode == InitKey))
            && (command == None && mode == Serve ==> Progress(site.env, st, end, false))
            && (command != None && command != Some("serve") && command != Some("init-key") ==> r.Err?)
  {
    hide ProcessRun;
    hide Progress;
    hide Justified;
    assert "serve" != "init-key" by { assert |"serve"| != |"init-key"|; }
    ProcessMeaning(site, command, seed, st);
    var r := ProcessRun(site, command, seed, st).1;
    assert r.Ok? ==> r.value.Initialised? || r.value.Serving?;
  }

  lemma CompleteKeySetStable(w: World, earlier: Store, later: Store, settings: Settings, publicKey: Bytes32)
    requires Extends(earlier, later) && CompleteKeySet(w, earlier, settings, publicKey)
    ensures CompleteKeySet(w, later, settings, publicKey)
  {
    hide PublishedKey;
    hide PublishedManifest;
    hide Recoverable;
    hide Below;
    PublishedKeyStable(w, earlier, later, settings.prefix);
    PublishedKeyHasManifest(w, earlier, settings.prefix);
    PublishedManifestStable(w, earlier, later, settings.prefix);
    var m := PublishedManifest(w, earlier, settings.prefix).value;
    RecoverableStable(w, earlier, later, m.recoveryObjects[0], settings.context, publicKey);
    RecoverableStable(w, earlier, later, m.recoveryObjects[1], settings.context, publicKey);
  }

  /** A serving process that will be answered: its broker lets it in, and one ARN shared with `committed` works. */
  ghost predicate Equipped(site: Site, command: Option<string>, committed: Settings, st: Session, i: nat, j: nat) {
    && Override(site.config.settings, command).Ok?
    && var settings := Override(site.config.settings, command).value;
    && settings.startupMode == Serve && ValidateConfiguration(settings).Ok?
    && Broker.PeerAllowed(site.config, site.peerCid)
    && site.env.climate.fate(st.ops, FetchSettings) == Answered
    && settings.prefix == committed.prefix && settings.context == committed.context
    && i < |settings.kmsKeys| && j < |committed.kmsKeys| && settings.kmsKeys[i].arn == committed.kmsKeys[j].arn
    && (PublishedManifest(site.env.w, st.sys.store, settings.prefix).Some? ==>
          PathReachable(site.env.climate, PublishedManifest(site.env.w, st.sys.store, settings.prefix).value,
                        settings.prefix, settings.kmsKeys[i].arn))
  }

  /** What a process finds when a complete key set is in the store and one shared key works. */
  lemma EquippedProcessServes(site: Site, command: Option<string>, seed: Bytes32, committed: Settings, publicKey: Bytes32,
                              st: Session, i: nat, j: nat)
    requires !Running(site.env, st) && Equipped(site, command, committed, st, i, j)
    requires CompleteKeySet(site.env.w, st.sys.store, committed, publicKey)
    ensures var r := ProcessRun(site, command, seed, st).1;
            r.Ok? && r.value.Serving? && r.value.pair.publicKey == publicKey
  {
    hide Turn;
    hide Watches;
    hide RestoreRun;
    hide CompleteKeySet;
    hide PathReachable;
    hide PublishedManifest;
    var e, settings := site.env, Override(site.config.settings, command).value;
    var st1 := Turn(e, st);
    TurnMine(e, st);
    WatchesGrows(e, st, st1);
    CompleteKeySetStable(e.w, st.sys.store, st1.sys.store, committed, publicKey);
    CompleteHasManifest(e.w, st.sys.store, committed, publicKey);
    PublishedManifestStable(e.w, st.sys.store, st1.sys.store, settings.prefix);
    assert Served(site, settings);
    AnyOneKeySuffices(site, committed, settings, publicKey, st1, i, j);
  }

  lemma CompleteHasManifest(w: World, store: Store, settings: Settings, publicKey: Bytes32)
    requires CompleteKeySet(w, store, settings, publicKey)
    ensures PublishedManifest(w, store, settings.prefix).Some?
  {
    hide PublishedManifest;
    hide Recoverable;
    hide Below;
    PublishedKeyHasManifest(w, store, settings.prefix);
  }

  /** The process initialises successfully with these settings and reports this key. */
  ghost predicate Initialises(site: Site, command: Option<string>, seed: Bytes32, st: Session, committed: Settings,
                              publicKey: Bytes32)
    requires !Running(site.env, st)
  {
    var r := ProcessRun(site, command, seed, st).1;
    && r.Ok? && r.value.Initialised? && r.value.pair.publicKey == publicKey
    && Override(site.config.settings, command) == Ok(committed)
  }

  /** The process comes to serve this key. */
  ghost predicate Serves(site: Site, command: Option<string>, seed: Bytes32, st: Session, publicKey: Bytes32)
    requires !Running(site.env, st)
  {
    var r := ProcessRun(site, command, seed, st).1;
    r.Ok? && r.value.Serving? && r.value.pair.publicKey == publicKey
  }

  /** After a successful initialisation in a trusted surrounding the key set is complete. */
  lemma InitialisedKeySetIsComplete(site: Site, command: Option<string>, seed: Bytes32, st: Session, committed: Settings,
                                    publicKey: Bytes32)
    requires Lawful(site.env.w) && TrustedClimate(site.env.climate) && Inv(site.env.w, st.sys) && !Running(site.env, st)
    requires Initialises(site, command, seed, st, committed, publicKey)
    ensures CompleteKeySet(site.env.w, ProcessRun(site, command, seed, st).0.sys.store, committed, publicKey)
  {
    hide ProcessRun;
    hide Progress;
    hide Inv;
    hide Lawful;
    hide CompleteKeySet;
    hide Justified;
    var e := site.env;
    var st1 := ProcessRun(site, command, seed, st).0;
    ProcessMeaning(site, command, seed, st);
    ProgressKeepsInv(e, st, st1, MayWrite(site, command));
    CommittedIsComplete(e.w, st1.sys, e.me);
  }

  /**
   * End to end. One process initialises successfully in a trusted surrounding; then anything happens, outside
   * writes included; then a process at another site starts to serve with one working key in common. It reaches
   * serving, with exactly the key that was initialised.
   */
  lemma InitialisedKeyIsServed(first: Site, second: Site, firstCommand: Option<string>, secondCommand: Option<string>,
                               seed: Bytes32, unused: Bytes32, committed: Settings, publicKey: Bytes32,
                               st: Session, between: seq<Action>, later: Session, i: nat, j: nat)
    requires first.env.w == second.env.w && Lawful(first.env.w) && TrustedClimate(first.env.climate)
    requires Inv(first.env.w, st.sys) && !Running(first.env, st) && !Running(second.env, later)
    requires Initialises(first, firstCommand, seed, st, committed, publicKey)
    requires later.sys == RunAll(first.env.w, ProcessRun(first, firstCommand, seed, st).0.sys, between)
    requires Equipped(second, secondCommand, committed, later, i, j)
    ensures Serves(second, secondCommand, unused, later, publicKey)
  {
    hide ProcessRun;
    hide Inv;
    hide Lawful;
    hide CompleteKeySet;
    hide RunAll;
    hide Equipped;
    hide Initialises;
    InitialisedKeySetIsComplete(first, firstCommand, seed, st, committed, publicKey);
    var st1 := ProcessRun(first, firstCommand, seed, st).0;
    RunExtends(first.env.w, st1.sys, between);
    CompleteKeySetStable(first.env.w, st1.sys.store, later.sys.store, committed, publicKey);
    EquippedProcessServes(second, secondCommand, unused, committed, publicKey, later, i, j);
  }

  // ----- the program -----

  lemma AsksBeforeRestoring(w: World, arn: string, context: Context, p: RecoveryPackage, expected: Bytes32)
    ensures forall up :: RestoreFromPackage(w, up, arn, context, p, expected).Ok? ==> AsksKms(p)
  {
  }

  /** If KMS decrypts what it generated, the generated package restores this process's key. */
  ghost predicate GeneratedRestores(e: Env, ops: nat, work: Work, p: RecoveryPackage)
    requires HasNextKey(work)
  {
    var arn := NextArn(work);
    var reply := e.climate.dataKey(ops, arn);
    Lawful(e.w) && e.w.kmsDecrypt(arn, work.settings.context, reply.blob) == Some(reply.plain) ==>
      RestoreFromPackage(e.w, true, arn, work.settings.context, p, PublicKey(e.w, work)).Ok?
  }

  lemma GeneratedPackageRestores(site: Site, st: Session)
    requires Running(site.env, st) && HasNextKey(Mine(site.env, st).work)
    ensures var r := GenerateRun(site, st).1;
            r.Ok? ==> GeneratedRestores(site.env, st.ops, Mine(site.env, st).work, r.value)
  {
    hide Lawful;
    hide Turn;
    hide Act;
    hide BuildPackage;
    hide RestoreFromPackage;
    var e, work := site.env, Mine(site.env, st).work;
    var reply, nonce := e.climate.dataKey(st.ops, NextArn(work)), e.climate.nonce(st.ops);
    if Lawful(e.w) && SupportedKeyLength(reply.plain)
       && e.w.kmsDecrypt(NextArn(work), work.settings.context, reply.blob) == Some(reply.plain) {
      BuiltPackageRestores(e.w, NextArn(work), work.settings.context, reply.plain, reply.blob, nonce, work.seed);
    }
  }

  class Enclave {
    const site: Site
    /** The store as seen through the broker. */
    const s3: S3Client
    var serving: bool

    constructor (site: Site, s3: S3Client)
      requires s3.env == site.env
      ensures this.site == site && this.s3 == s3 && !serving && Wired()
    {
      this.site := site;
      this.s3 := s3;
      serving := false;
    }

    ghost predicate Wired() {
      s3.env == site.env
    }

    predicate Active()
      reads s3
    {
      Running(site.env, s3.Now())
    }

    /** What this process has computed so far. */
    function Current(): Process
      requires Active()
      reads s3
    {
      Mine(site.env, s3.Now())
    }

    // ----- requests -----

    method LoadObject(bucket: string, key: string) returns (r: Result<Option<Bytes>, Error>)
      requires Wired()
      modifies s3
      ensures (s3.Now(), r) == ClientLoad(site, old(s3.Now()), bucket, key)
      ensures Watches(site.env, old(s3.Now()), s3.Now())
      ensures r.Ok? ==> r.value == Lookup(s3.sys.store, key)
    {
      hide Turn;
      hide LoadRun;
      hide Watches;
      ClientLoadWatches(site, s3.Now(), bucket, key);
      var fate := site.env.climate.fate(s3.ops, Call(key));
      s3.BeginOperation();
      if !fate.Answered? {
        return Err(Transport);
      }
      if Broker.Dispatch(site.config, Broker.Connection(site.peerCid, Broker.LoadObject(bucket, key))) != Broker.Load(key) {
        return Err(Rejected);
      }
      r := s3.LoadObject(key);
    }

    method SaveObjectIfAbsent(key: string, body: Bytes, item: Item) returns (r: Result<(), Error>)
      requires Wired() && Active() && Current().phase == Ready(item)
      requires key == KeyOf(site.env.w, Own(Current().work, item)) && body == BodyOf(site.env.w, Own(Current().work, item))
      modifies s3
      ensures (s3.Now(), r) == SaveItemRun(site, old(s3.Now()), item)
      ensures r.Ok? ==> Lookup(s3.sys.store, key) == Some(body)
    {
      hide Turn;
      hide Act;
      hide SaveRun;
      hide KeyOf;
      hide BodyOf;
      hide Progress;
      hide Watches;
      hide Broker.Dispatch;
      SaveItemMeaning(site, s3.Now(), item);
      var work := s3.sys.processes[site.env.me].work;
      var fate := site.env.climate.fate(s3.ops, Call(key));
      TurnMine(site.env, s3.Now());
      s3.BeginOperation();
      AdmitStep(site.env, s3.Now(), item);
      var allowed := Broker.Dispatch(site.config, Broker.Connection(site.peerCid,
                       Broker.SaveObjectIfAbsent(work.settings.bucket, key, body))).Save?;
      if !fate.Answered? {
        if fate.applied && allowed { s3.Perform(Admit(site.env.me)); }
        return Err(Transport);
      }
      if !allowed {
        return Err(Rejected);
      }
      s3.Perform(Admit(site.env.me));
      r := s3.SaveIfAbsent(Own(work, item));
      if r.Err? {
        return r;
      }
      s3.Perform(Acknowledge(site.env.me));
      return Ok(());
    }

    method VerifyUploadedObject(key: string, expectedHash: string, item: Item) returns (r: Result<(), Error>)
      requires Wired() && Active() && Current().phase == Verifying(item) && !item.ManifestItem?
      requires key == KeyOf(site.env.w, Own(Current().work, item))
      requires expectedHash == Sha256Hex(site.env.w, BodyOf(site.env.w, Own(Current().work, item)))
      modifies s3
      ensures (s3.Now(), r) == VerifyItemRun(site, old(s3.Now()), item)
      ensures r.Ok? ==> key in s3.sys.store && Sha256Hex(site.env.w, s3.sys.store[key]) == expectedHash
      ensures r.Ok? ==> Active() && Current() == Process(old(Current().work), AfterVerify(item))
      ensures r.Err? ==> Unfinished(site.env, s3.Now(), old(Current().work))
    {
      VerifyItemMeaning(site, s3.Now(), item);
      hide Act;
      hide ClientLoad;
      hide KeyOf;
      hide BodyOf;
      hide VerifySha256;
      hide Watches;
      ghost var start := s3.Now();
      var body := LoadObject(s3.sys.processes[site.env.me].work.settings.bucket, key);
      if body.Err? {
        return Err(body.error);
      }
      if body.value.None? {
        return Err(ObjectMissing);
      }
      if VerifySha256(site.env.w, body.value.value, expectedHash).Err? {
        return Err(HashMismatch);
      }
      s3.Perform(Verify(site.env.me));
      return Ok(());
    }

    method GenerateDataKey(arn: string) returns (r: Result<RecoveryPackage, Error>)
      requires Wired() && Active() && Current().phase == Generating
      requires HasNextKey(Current().work) && arn == NextArn(Current().work)
      modifies s3
      ensures (s3.Now(), r) == GenerateRun(site, old(s3.Now()))
      ensures r.Ok? ==> Active() && Current() == Process(old(Current().work), Ready(PackageItem(r.value)))
      ensures r.Err? ==> Unfinished(site.env, s3.Now(), old(Current().work))
      ensures var reply := site.env.climate.dataKey(old(s3.ops), arn);
              r.Ok? <==>
                && site.env.climate.fate(old(s3.ops), GenerateKey(arn)).Answered? && reply.keyId == arn
                && (|reply.plain| == 16 || |reply.plain| == 32) && KmsArn.DisplayId(arn).Ok?
      ensures r.Ok? ==> GeneratedRestores(site.env, old(s3.ops), old(Current().work), r.value)
    {
      hide Turn;
      hide Act;
      hide BuildPackage;
      hide GeneratedRestores;
      hide Progress;
      GenerateMeaning(site, s3.Now());
      GeneratedPackageRestores(site, s3.Now());
      GenerateExact(site, s3.Now());
      hide KmsArn.DisplayId;
      var e := site.env;
      var fate, generated, nonce := e.climate.fate(s3.ops, GenerateKey(arn)), e.climate.dataKey(s3.ops, arn),
          e.climate.nonce(s3.ops);
      var seed := s3.sys.processes[e.me].work.seed;
      s3.BeginOperation();
      if !fate.Answered? {
        return Err(KmsFailed);
      }
      if generated.keyId != arn {
        return Err(UnexpectedKeyId);
      }
      if !SupportedKeyLength(generated.plain) {
        return Err(BadDataKeyLength);
      }
      if KmsArn.StorageId(ArnDigest(e.w, arn), arn).Err? {
        return Err(BadArn);
      }
      s3.Perform(Generate(e.me, generated.plain, generated.blob, generated.keyId, nonce));
      return Ok(BuildPackage(e.w, generated.plain, generated.blob, nonce, seed));
    }

    /** The decryption asked of KMS takes an operation of its own; everything else is computed. */
    method RestoreFromPackage(arn: string, context: Context, p: RecoveryPackage, expected: Bytes32)
      returns (r: Result<(), Error>)
      requires Wired()
      modifies s3
      ensures (s3.Now(), r) == TryPackage(site.env, old(s3.Now()), arn, context, p, expected)
      ensures Watches(site.env, old(s3.Now()), s3.Now())
      ensures if AsksKms(p) then s3.ops == old(s3.ops) + 1 else r.Err? && s3.Now() == old(s3.Now())
      ensures r.Ok? <==>
              && site.env.climate.fate(old(s3.ops), DecryptKey(arn)).Answered?
              && exists privateKey: Bytes32 ::
                   Unwraps(site.env.w, arn, context, p, privateKey) && site.env.w.publicKeyOf(privateKey) == expected
    {
      hide Turn;
      hide Watches;
      hide Unwraps;
      AsksBeforeRestoring(site.env.w, arn, context, p, expected);
      RestoreFromPackageExact(site.env.w, arn, context, p, expected);
      hide KeyMaterial.RestoreFromPackage;
      TurnWatches(site.env, s3.Now());
      WatchesSame(site.env, s3.Now());
      var up := site.env.climate.fate(s3.ops, DecryptKey(arn)).Answered?;
      if AsksKms(p) {
        s3.BeginOperation();
      }
      r := KeyMaterial.RestoreFromPackage(site.env.w, up, arn, context, p, expected);
    }

    // ----- initialising -----

    method CheckManifestAbsent(settings: Settings, seed: Bytes32) returns (r: Result<(), Error>)
      requires Wired()
      modifies s3
      ensures (s3.Now(), r) == CheckRun(site, settings, seed, old(s3.Now()))
    {
      hide Act;
      hide ClientLoad;
      hide ManifestKey;
      s3.Perform(Spawn(site.env.me, settings, seed));
      var existing := LoadObject(settings.bucket, ManifestKey(settings.prefix));
      if existing.Err? {
        return Err(existing.error);
      }
      if existing.value.Some? {
        return Err(ManifestExists);
      }
      s3.Perform(CheckAbsent(site.env.me));
      return Ok(());
    }

    /** Wraps the private key under one KMS key, stores and checks the package, and tries it. */
    method WritePackage(arn: string) returns (r: Result<RecoveryReference, Error>)
      requires Wired() && Active() && Current().phase == Generating
      requires HasNextKey(Current().work) && arn == NextArn(Current().work)
      modifies s3
      ensures s3.Now() == PackageRun(site, old(s3.Now())).0
      ensures match PackageRun(site, old(s3.Now())).1 case Ok(_) => r.Ok? case Err(error) => r == Err(error)
      ensures r.Ok? ==> Active() && Current().work.references == old(Current().work.references) + [r.value]
    {
      hide GenerateRun;
      hide SaveItemRun;
      hide VerifyItemRun;
      hide TrialRun;
      hide Progress;
      hide KeyOf;
      hide Act;
      hide Stored;
      hide Watches;
      var w, settings := site.env.w, s3.sys.processes[site.env.me].work.settings;
      ghost var work := Current().work;
      GenerateMeaning(site, s3.Now());
      var generated := GenerateDataKey(arn);
      if generated.Err? {
        return Err(generated.error);
      }
      var package := generated.value;
      assert Current() == Process(work, Ready(PackageItem(package)));
      var packageBody := w.packages.render(package);
      var packageHash := Sha256Hex(w, packageBody);
      var objectKey := KeyOf(w, Own(s3.sys.processes[site.env.me].work, PackageItem(package)));
      SaveItemMeaning(site, s3.Now(), PackageItem(package));
      var saved := SaveObjectIfAbsent(objectKey, packageBody, PackageItem(package));
      if saved.Err? {
        return Err(saved.error);
      }
      VerifyItemMeaning(site, s3.Now(), PackageItem(package));
      var verified := VerifyUploadedObject(objectKey, packageHash, PackageItem(package));
      if verified.Err? {
        return Err(verified.error);
      }
      r := TrialRestore(package, objectKey, packageHash);
    }

    method TrialRestore(package: RecoveryPackage, objectKey: string, packageHash: string)
      returns (r: Result<RecoveryReference, Error>)
      requires Wired() && Active() && Current().phase == Trying(package) && HasNextKey(Current().work)
      requires objectKey == KeyOf(site.env.w, Own(Current().work, PackageItem(package)))
      requires packageHash == PackageHash(site.env.w, package)
      modifies s3
      ensures s3.Now() == TrialRun(site, old(s3.Now()), package).0
      ensures match TrialRun(site, old(s3.Now()), package).1 case Ok(_) => r.Ok? case Err(error) => r == Err(error)
      ensures r.Ok? ==> Active() && Current().work.references == old(Current().work.references) + [r.value]
    {
      hide Progress;
      hide KeyOf;
      hide Act;
      hide Watches;
      hide TryPackage;
      hide PackageHash;
      TrialMeaning(site, s3.Now(), package);
      var work := s3.sys.processes[site.env.me].work;
      var tried := RestoreFromPackage(NextArn(work), work.settings.context, package, PublicKey(site.env.w, work));
      if tried.Err? {
        return Err(tried.error);
      }
      s3.Perform(TryRestore(site.env.me));
      return Ok(RecoveryReference(NextArn(work), objectKey, packageHash));
    }

    /** Stores and checks the public document, then commits with the manifest. */
    method Publish(publicKey: Bytes32, recoveryObjects: seq<RecoveryReference>) returns (r: Result<(), Error>)
      requires Wired() && Active() && Current().phase == Ready(PublicItem)
      requires publicKey == PublicKey(site.env.w, Current().work) && recoveryObjects == Current().work.references
      modifies s3
      ensures (s3.Now(), r) == PublishRun(site, old(s3.Now()))
    {
      hide SaveItemRun;
      hide VerifyItemRun;
      hide Progress;
      hide Stored;
      var w, prefix := site.env.w, s3.sys.processes[site.env.me].work.settings.prefix;
      var publicObjectKey, publicBody := PublicObjectKey(w, prefix, publicKey), PublicBody(w, publicKey);
      var manifest := ManifestOf(w, prefix, publicKey, recoveryObjects);
      assert publicObjectKey == KeyOf(w, Own(Current().work, PublicItem));
      assert ManifestKey(prefix) == KeyOf(w, Own(Current().work, ManifestItem));
      hide KeyOf;
      hide PublicBody;
      hide ManifestKey;
      SaveItemMeaning(site, s3.Now(), PublicItem);
      r := SaveObjectIfAbsent(publicObjectKey, publicBody, PublicItem);
      if r.Ok? {
        VerifyItemMeaning(site, s3.Now(), PublicItem);
        r := VerifyUploadedObject(publicObjectKey, Sha256Hex(w, publicBody), PublicItem);
        if r.Ok? {
          r := SaveObjectIfAbsent(ManifestKey(prefix), w.manifests.render(manifest), ManifestItem);
        }
      }
    }

    /** All packages in settings order, collecting their references, then the publication. */
    method WriteAll(publicKey: Bytes32) returns (r: Result<(), Error>)
      requires Wired() && Active() && Current().work.references == []
      requires Current().phase == if HasNextKey(Current().work) then Generating else Ready(PublicItem)
      requires publicKey == PublicKey(site.env.w, Current().work)
      modifies s3
      ensures (s3.Now(), r) == WriteAllRun(site, old(s3.Now()))
    {
      hide PackageRun;
      hide PublishRun;
      hide Progress;
      hide Watches;
      ghost var start := s3.Now();
      var settings := s3.sys.processes[site.env.me].work.settings;
      var recoveryObjects: seq<RecoveryReference> := [];
      PackagesMeaning(site, start);
      while |recoveryObjects| < |settings.kmsKeys|
        invariant Active() && Current().work.settings == settings && recoveryObjects == Current().work.references
        invariant publicKey == PublicKey(site.env.w, Current().work)
        invariant Current().phase == if HasNextKey(Current().work) then Generating else Ready(PublicItem)
        invariant PackagesRun(site, s3.Now()) == PackagesRun(site, start)
        decreases |settings.kmsKeys| - |recoveryObjects|
      {
        PackageMeaning(site, s3.Now());
        var packaged := WritePackage(settings.kmsKeys[|recoveryObjects|].arn);
        if packaged.Err? {
          return Err(packaged.error);
        }
        recoveryObjects := recoveryObjects + [packaged.value];
      }
      r := Publish(publicKey, recoveryObjects);
    }

    method InitialiseKeyMaterial(settings: Settings, seed: Bytes32) returns (r: Result<KeyPair, Error>)
      requires Wired() && !Active() && ValidateConfiguration(settings).Ok?
      modifies s3
      ensures (s3.Now(), r) == InitialiseRun(site, settings, seed, old(s3.Now()))
      ensures Active() && Current().work.settings == settings && Current().work.seed == seed
      ensures Current().phase == if r.Ok? then Committed else Stopped
      ensures r.Ok? ==> r.value.publicKey == PublicKey(site.env.w, Current().work)
      ensures !Writable(site) || ManifestKey(settings.prefix) in old(s3.sys.store) ==>
                r.Err? && Progress(site.env, old(s3.Now()), s3.Now(), false)
    {
      InitialiseMeaning(site, settings, seed, s3.Now());
      hide Act;
      hide CheckRun;
      hide WriteAllRun;
      hide Progress;
      hide ManifestKey;
      ConfiguredKeys(settings);
      hide ValidateConfiguration;
      CheckMeaning(site, settings, seed, s3.Now());
      var checked := CheckManifestAbsent(settings, seed);
      if checked.Err? {
        s3.Perform(Stop(site.env.me));
        return Err(checked.error);
      }
      var publicKey := site.env.w.publicKeyOf(seed);
      var written := WriteAll(publicKey);
      if written.Err? {
        s3.Perform(Stop(site.env.me));
        return Err(written.error);
      }
      return Ok(KeyPair(publicKey, Sha256Hex(site.env.w, publicKey), ""));
    }

    // ----- restoring -----

    method AttemptWithKey(settings: Settings, m: Manifest, expected: Bytes32, i: nat) returns (r: Result<(), Error>)
      requires Wired() && i < |settings.kmsKeys|
      modifies s3
      ensures (s3.Now(), r) == AttemptKey(site, settings, m, expected, old(s3.Now()), i)
      ensures Watches(site.env, old(s3.Now()), s3.Now())
      ensures var found := FindReference(m.recoveryObjects, settings.kmsKeys[i].arn);
              && (found.None? ==> r == Err(NoReference) && s3.Now() == old(s3.Now()))
              && (r.Ok? ==> found.Some? && Recoverable(site.env.w, s3.sys.store, found.value, settings.context, expected))
    {
      hide Recoverable;
      AttemptMeaning(site, settings, m, expected, s3.Now(), i);
      hide ClientLoad;
      hide TryPackage;
      hide VerifySha256;
      hide Watches;
      var arn := settings.kmsKeys[i].arn;
      var reference := FindReference(m.recoveryObjects, arn);
      if reference.None? {
        return Err(NoReference);
      }
      var loaded := LoadObject(settings.bucket, reference.value.objectKey);
      if loaded.Err? {
        return Err(loaded.error);
      }
      if loaded.value.None? {
        return Err(ObjectMissing);
      }
      if VerifySha256(site.env.w, loaded.value.value, reference.value.sha256).Err? {
        return Err(HashMismatch);
      }
      var package := site.env.w.packages.parse(loaded.value.value);
      if package.None? {
        return Err(BadJson);
      }
      r := RestoreFromPackage(arn, settings.context, package.value, expected);
    }

    /** The fallback loop. */
    method TryKeys(settings: Settings, m: Manifest, expected: Bytes32) returns (r: Result<KeyPair, Error>)
      requires Wired()
      modifies s3
      ensures (s3.Now(), r) == RestoreLoop(site, settings, m, expected, old(s3.Now()), 0, [])
      ensures LoopSpec(site, settings, m, expected, old(s3.Now()), s3.Now(), r)
    {
      hide AttemptKey;
      hide LoopSpec;
      ghost var start := s3.Now();
      RestoreLoopMeetsSpec(site, settings, m, expected, start);
      var failures: seq<(string, Error)> := [];
      for i := 0 to |settings.kmsKeys|
        invariant RestoreLoop(site, settings, m, expected, s3.Now(), i, failures)
                  == RestoreLoop(site, settings, m, expected, start, 0, [])
      {
        var arn := settings.kmsKeys[i].arn;
        var attempt := AttemptWithKey(settings, m, expected, i);
        if attempt.Ok? {
          return Ok(KeyPair(expected, m.keyFingerprint, arn));
        }
        failures := failures + [(arn, attempt.error)];
      }
      return Err(AllFailed(failures));
    }

    method RestoreKeyMaterial(settings: Settings) returns (r: Result<KeyPair, Error>)
      requires Wired()
      modifies s3
      ensures (s3.Now(), r) == RestoreRun(site, settings, old(s3.Now()))
      ensures r.Ok? ==> Justified(site.env.w, s3.sys.store, settings, r.value)
    {
      hide ClientLoad;
      hide RestoreLoop;
      hide VerifySha256;
      hide ManifestKey;
      hide Watches;
      hide Justified;
      hide LoopSpec;
      hide ValidateManifest;
      hide ValidatePublicDocument;
      RestoreSound(site, settings, s3.Now());
      var w := site.env.w;
      var manifestBody := LoadObject(settings.bucket, ManifestKey(settings.prefix));
      if manifestBody.Err? {
        return Err(manifestBody.error);
      }
      if manifestBody.value.None? {
        return Err(ManifestMissing);
      }
      var manifest := w.manifests.parse(manifestBody.value.value);
      if manifest.None? {
        return Err(BadJson);
      }
      if ValidateManifest(manifest.value).Err? {
        return Err(UnsupportedManifest);
      }
      var publicBody := LoadObject(settings.bucket, manifest.value.publicKey.objectKey);
      if publicBody.Err? {
        return Err(publicBody.error);
      }
      if publicBody.value.None? {
        return Err(ObjectMissing);
      }
      if VerifySha256(w, publicBody.value.value, manifest.value.publicKey.sha256).Err? {
        return Err(HashMismatch);
      }
      var document := w.publicKeys.parse(publicBody.value.value);
      if document.None? {
        return Err(BadJson);
      }
      var expected := ValidatePublicDocument(w, document.value, manifest.value);
      if expected.Err? {
        return Err(expected.error);
      }
      r := TryKeys(settings, manifest.value, expected.value);
    }

    // ----- the process -----

    method Start(settings: Settings, seed: Bytes32) returns (r: Result<Started, Error>)
      requires Wired() && !Active()
      modifies s3
      ensures (s3.Now(), r) == StartRun(site, settings, seed, old(s3.Now()))
    {
      hide InitialiseRun;
      hide RestoreRun;
      hide ValidateConfiguration;
      hide Justified;
      var valid := ValidateConfiguration(settings);
      if valid.Err? {
        return Err(valid.error);
      }
      if settings.startupMode == InitKey {
        var initialised := InitialiseKeyMaterial(settings, seed);
        return if initialised.Ok? then Ok(Initialised(initialised.value)) else Err(initialised.error);
      }
      var restored := RestoreKeyMaterial(settings);
      return if restored.Ok? then Ok(Serving(restored.value)) else Err(restored.error);
    }

    /** The process: settings from the broker, mode overridden in place, then exit or serve. */
    method RunProcess(command: Option<string>, seed: Bytes32) returns (r: Result<Started, Error>)
      requires Wired() && !Active() && !serving
      modifies this, s3
      ensures (s3.Now(), r) == ProcessRun(site, command, seed, old(s3.Now()))
      ensures serving <==> r.Ok? && r.value.Serving?
      ensures serving ==> Justified(site.env.w, s3.sys.store, Override(site.config.settings, command).value, r.value.pair)
      ensures !MayWrite(site, command) ==> Progress(site.env, old(s3.Now()), s3.Now(), false)
      ensures command == Some("serve") ==>
                Progress(site.env, old(s3.Now()), s3.Now(), false) && (r.Ok? ==> r.value.Serving?)
      ensures command == Some("init-key") ==> r.Ok? ==> r.value.Initialised?
      ensures command == None ==> r.Ok? ==> (r.value.Initialised? <==> site.config.settings.startupMode == InitKey)
    {
      hide Turn;
      hide StartRun;
      hide Justified;
      hide Progress;
      hide Watches;
      ProcessMeaning(site, command, seed, s3.Now());
      CommandsMean(site, command, seed, s3.Now());
      TurnMine(site.env, s3.Now());
      var fate := site.env.climate.fate(s3.ops, FetchSettings);
      s3.BeginOperation();
      if !fate.Answered? {
        return Err(Transport);
      }
      if !Broker.Dispatch(site.config, Broker.Connection(site.peerCid, Broker.GetSettings)).SendSettings? {
        return Err(Rejected);
      }
      var settings := site.config.settings;
      if command == Some("init-key") {
        settings := settings.(startupMode := InitKey);
      } else if command == Some("serve") {
        settings := settings.(startupMode := Serve);
      } else if command.Some? {
        return Err(UnknownCommand);
      }
      r := Start(settings, seed);
      if r.Ok? && settings.startupMode == Serve {
        serving := true;
      }
    }
  }
}
