/** Initialising the key: the steps of an init-key enclave as functions of its session, tied to the commit protocol. */
module Initialise {
  import opened Basics
  import opened KeyMaterial
  import opened Commit
  import opened Retry
  import opened Restore
  import Broker
  import KmsArn
  import ObjectNames

  // ----- the steps -----

  predicate Running(e: Env, st: Session) {
    e.me in st.sys.processes
  }

  function Mine(e: Env, st: Session): Process
    requires Running(e, st)
  {
    st.sys.processes[e.me]
  }

  /** Sends one item to the broker; the broker may go on with it even when its answer is lost. */
  function SaveItemRun(site: Site, st: Session, item: Item): (Session, Result<(), Error>)
    requires Running(site.env, st)
  {
    var e := site.env;
    var work := Mine(e, st).work;
    var write := Own(work, item);
    var fate := e.climate.fate(st.ops, Call(KeyOf(e.w, write)));
    var st1 := Turn(e, st);
    var allowed := Broker.Dispatch(site.config, Broker.Connection(site.peerCid,
                     Broker.SaveObjectIfAbsent(work.settings.bucket, KeyOf(e.w, write), BodyOf(e.w, write)))).Save?;
    if !fate.Answered? then (if fate.applied && allowed then Act(e, st1, Admit(e.me)) else st1, Err(Transport))
    else if !allowed then (st1, Err(Rejected))
    else
      var (st2, r) := SaveRun(e, Act(e, st1, Admit(e.me)), write, 1);
      if r.Err? then (st2, r) else (Act(e, st2, Acknowledge(e.me)), Ok(()))
  }

  function VerifyItemRun(site: Site, st: Session, item: Item): (Session, Result<(), Error>)
    requires Running(site.env, st)
  {
    var e := site.env;
    var work := Mine(e, st).work;
    var write := Own(work, item);
    var (st1, loaded) := ClientLoad(site, st, work.settings.bucket, KeyOf(e.w, write));
    match loaded
    case Err(error) => (st1, Err(error))
    case Ok(None) => (st1, Err(ObjectMissing))
    case Ok(Some(body)) =>
      if VerifySha256(e.w, body, Sha256Hex(e.w, BodyOf(e.w, write))).Err? then (st1, Err(HashMismatch))
      else (Act(e, st1, Verify(e.me)), Ok(()))
  }

  /** Generates a data key under the next KMS key and wraps the private key with it. */
  function GenerateRun(site: Site, st: Session): (Session, Result<RecoveryPackage, Error>)
    requires Running(site.env, st) && HasNextKey(Mine(site.env, st).work)
  {
    var e := site.env;
    var work := Mine(e, st).work;
    var arn := NextArn(work);
    var fate, reply, nonce := e.climate.fate(st.ops, GenerateKey(arn)), e.climate.dataKey(st.ops, arn), e.climate.nonce(st.ops);
    var st1 := Turn(e, st);
    if !fate.Answered? then (st1, Err(KmsFailed))
    else if reply.keyId != arn then (st1, Err(UnexpectedKeyId))
    else if !SupportedKeyLength(reply.plain) then (st1, Err(BadDataKeyLength))
    else if KmsArn.StorageId(ArnDigest(e.w, arn), arn).Err? then (st1, Err(BadArn))
    else (Act(e, st1, Generate(e.me, reply.plain, reply.blob, reply.keyId, nonce)),
          Ok(BuildPackage(e.w, reply.plain, reply.blob, nonce, work.seed)))
  }

  /** The trial restore of the package just written. */
  function TrialRun(site: Site, st: Session, p: RecoveryPackage): (Session, Result<(), Error>)
    requires Running(site.env, st) && HasNextKey(Mine(site.env, st).work)
  {
    var e := site.env;
    var work := Mine(e, st).work;
    var (st1, r) := TryPackage(e, st, NextArn(work), work.settings.context, p, PublicKey(e.w, work));
    if r.Err? then (st1, r) else (Act(e, st1, TryRestore(e.me)), Ok(()))
  }

  // ----- what a session of this process may contain -----

  /** A generation step carries exactly what KMS answered, at some moment, for that very key id. */
  ghost predicate FromKms(e: Env, start: nat, end: nat, a: Action) {
    a.Generate? ==> exists n: nat :: start <= n < end && KmsAnswered(e, n, a.keyId, a.plain, a.blob, a.nonce)
  }

  ghost predicate KmsAnswered(e: Env, n: nat, arn: string, plain: Bytes, blob: Bytes, nonce: Bytes12) {
    && e.climate.fate(n, GenerateKey(arn)).Answered? && e.climate.dataKey(n, arn) == DataKeyReply(plain, blob, arn)
    && nonce == e.climate.nonce(n)
  }

  /** Others' actions, own process steps, and landings of own writes; admissions and landings only if `writes`. */
  ghost predicate OwnStep(e: Env, start: nat, end: nat, a: Action, writes: bool) {
    || FromOthers(e, start, end, a)
    || (MovesProcess(a, e.me) && (writes || !a.Admit?) && FromKms(e, start, end, a))
    || (writes && a.Land? && a.write.Own?)
  }

  ghost predicate Progress(e: Env, earlier: Session, later: Session, writes: bool) {
    && Follows(e, earlier, later)
    && forall i :: |earlier.trace| <= i < |later.trace| ==> OwnStep(e, earlier.ops, later.ops, later.trace[i], writes)
  }

  lemma ProgressTrans(e: Env, a: Session, b: Session, c: Session, writes: bool)
    requires Progress(e, a, b, writes) && Progress(e, b, c, writes)
    ensures Progress(e, a, c, writes)
  {
    hide RunAll;
    var first, second := b.trace[|a.trace|..], c.trace[|b.trace|..];
    RunAllAppend(e.w, a.sys, first, second);
    assert c.trace[|a.trace|..] == first + second;
    forall i | |a.trace| <= i < |c.trace| ensures OwnStep(e, a.ops, c.ops, c.trace[i], writes) {
      if i < |b.trace| {
        assert c.trace[i] == b.trace[i];
      }
    }
  }

  lemma ProgressAct(e: Env, st: Session, a: Action, writes: bool)
    requires MovesProcess(a, e.me) && (writes || !a.Admit?) && !a.Generate?
    ensures Progress(e, st, Act(e, st, a), writes)
  {
    hide Act;
    hide RunAll;
    hide Step;
    ActFollows(e, st, a, {a});
    ActTrace(e, st, a);
  }

  /** A generation step right after the KMS operation that answered it. */
  lemma ProgressGenerate(e: Env, st: Session, st1: Session, a: Action, writes: bool)
    requires Progress(e, st, st1, writes) && st.ops < st1.ops
    requires a.Generate? && a.pid == e.me && KmsAnswered(e, st.ops, a.keyId, a.plain, a.blob, a.nonce)
    ensures Progress(e, st, Act(e, st1, a), writes)
  {
    hide Act;
    hide RunAll;
    hide Step;
    hide KmsAnswered;
    var end := Act(e, st1, a);
    ActFollows(e, st1, a, {a});
    ActTrace(e, st1, a);
    var first, second := st1.trace[|st.trace|..], end.trace[|st1.trace|..];
    RunAllAppend(e.w, st.sys, first, second);
    assert end.trace[|st.trace|..] == first + second;
    forall i | |st.trace| <= i < |end.trace| ensures OwnStep(e, st.ops, end.ops, end.trace[i], writes) {
      if i < |st1.trace| {
        assert end.trace[i] == st1.trace[i];
      }
    }
  }

  lemma ActTrace(e: Env, st: Session, a: Action)
    ensures Act(e, st, a).trace == st.trace + [a] && Act(e, st, a).sys == Step(e.w, st.sys, a)
  {
  }

  lemma ProgressWatch(e: Env, a: Session, b: Session, writes: bool)
    requires Watches(e, a, b)
    ensures Progress(e, a, b, writes)
  {
    hide RunAll;
  }

  lemma ProgressSave(e: Env, a: Session, b: Session, write: Write)
    requires Follows(e, a, b) && Sourced(e, a, b, {Land(write)}) && write.Own?
    ensures Progress(e, a, b, true)
  {
    hide RunAll;
  }

  lemma ProgressMore(e: Env, a: Session, b: Session)
    requires Progress(e, a, b, false)
    ensures Progress(e, a, b, true)
  {
    hide RunAll;
  }

  ghost predicate TrustedClimate(climate: Climate) {
    forall n, a :: a in climate.others(n) ==> Harmless(a)
  }

  /** If outside parties leave manifest names alone, the session is a trusted run, and the invariant carries over. */
  lemma ProgressKeepsInv(e: Env, a: Session, b: Session, writes: bool)
    requires Progress(e, a, b, writes) && TrustedClimate(e.climate) && Lawful(e.w) && Inv(e.w, a.sys)
    ensures Inv(e.w, b.sys)
  {
    hide RunAll;
    hide Inv;
    hide Lawful;
    var actions := b.trace[|a.trace|..];
    forall i | 0 <= i < |actions| ensures Harmless(actions[i]) {
      assert OwnStep(e, a.ops, b.ops, b.trace[|a.trace| + i], writes);
    }
    RunKeepsInv(e.w, a.sys, actions);
  }

  lemma ProgressGrows(e: Env, a: Session, b: Session, writes: bool)
    requires Progress(e, a, b, writes)
    ensures Extends(a.sys.store, b.sys.store) && a.sys.inFlight <= b.sys.inFlight
  {
    hide RunAll;
    ContinuationGrows(e, a, b);
  }

  /** A process that writes nothing adds nothing: whatever appears meanwhile was landed by somebody else. */
  lemma QuietAddsNothing(e: Env, a: Session, b: Session, key: string)
    requires Progress(e, a, b, false) && key !in a.sys.store && key in b.sys.store
    ensures exists n: nat, write: Write ::
              a.ops <= n < b.ops && Land(write) in e.climate.others(n)
              && KeyOf(e.w, write) == key && BodyOf(e.w, write) == b.sys.store[key]
  {
    hide RunAll;
    hide KeyOf;
    hide BodyOf;
    var actions := b.trace[|a.trace|..];
    NewObjectsLanded(e.w, a.sys, actions, key);
    var i :| 0 <= i < |actions| && actions[i].Land? && KeyOf(e.w, actions[i].write) == key
             && BodyOf(e.w, actions[i].write) == b.sys.store[key];
    var action := b.trace[|a.trace| + i];
    assert OwnStep(e, a.ops, b.ops, action, false);
    assert action == Land(action.write);
  }

  // ----- others do not touch this process -----

  lemma StepKeepsOther(w: World, s: System, a: Action, me: nat)
    requires !MovesProcess(a, me)
    ensures me in s.processes <==> me in Step(w, s, a).processes
    ensures me in s.processes ==> Step(w, s, a).processes[me] == s.processes[me]
  {
    hide KeyOf;
    hide BodyOf;
    hide BuildPackage;
    hide RestoreFromPackage;
    hide VerifySha256;
    hide AfterTry;
  }

  lemma {:induction false} RunKeepsOther(w: World, s: System, actions: seq<Action>, me: nat)
    requires forall i :: 0 <= i < |actions| ==> !MovesProcess(actions[i], me)
    ensures me in s.processes <==> me in RunAll(w, s, actions).processes
    ensures me in s.processes ==> RunAll(w, s, actions).processes[me] == s.processes[me]
    decreases |actions|
  {
    hide Step;
    if actions != [] {
      StepKeepsOther(w, s, actions[0], me);
      RunKeepsOther(w, Step(w, s, actions[0]), actions[1..], me);
    }
  }

  lemma SessionKeepsMine(e: Env, a: Session, b: Session, own: set<Action>)
    requires Follows(e, a, b) && Sourced(e, a, b, own) && forall x :: x in own ==> x.Land?
    ensures Running(e, a) <==> Running(e, b)
    ensures Running(e, a) ==> Mine(e, b) == Mine(e, a)
  {
    hide RunAll;
    var actions := b.trace[|a.trace|..];
    forall i | 0 <= i < |actions| ensures !MovesProcess(actions[i], e.me) {
      assert actions[i] == b.trace[|a.trace| + i];
    }
    RunKeepsOther(e.w, a.sys, actions, e.me);
  }

  // ----- own steps -----

  lemma AdmitStep(e: Env, st: Session, item: Item)
    requires Running(e, st) && Mine(e, st).phase == Ready(item)
    ensures var t := Act(e, st, Admit(e.me)); var work := Mine(e, st).work;
            && Running(e, t) && Mine(e, t) == Process(work, Saving(item))
            && t.sys.store == st.sys.store && t.sys.inFlight == st.sys.inFlight + {Own(work, item)}
  {
    hide KeyOf;
    hide BodyOf;
  }

  lemma AcknowledgeStep(e: Env, st: Session, item: Item)
    requires Running(e, st) && Mine(e, st).phase == Saving(item) && Stored(e.w, st.sys.store, Own(Mine(e, st).work, item))
    ensures var t := Act(e, st, Acknowledge(e.me));
            && Running(e, t) && Mine(e, t) == Process(Mine(e, st).work, AfterAcknowledge(item))
            && t.sys.store == st.sys.store && t.sys.inFlight == st.sys.inFlight
  {
    hide KeyOf;
    hide BodyOf;
  }

  lemma VerifyStep(e: Env, st: Session, item: Item)
    requires Running(e, st) && Mine(e, st).phase == Verifying(item) && !item.ManifestItem?
    requires var write := Own(Mine(e, st).work, item);
             && KeyOf(e.w, write) in st.sys.store
             && VerifySha256(e.w, st.sys.store[KeyOf(e.w, write)], Sha256Hex(e.w, BodyOf(e.w, write))).Ok?
    ensures var t := Act(e, st, Verify(e.me));
            && Running(e, t) && Mine(e, t) == Process(Mine(e, st).work, AfterVerify(item))
            && t.sys.store == st.sys.store && t.sys.inFlight == st.sys.inFlight
  {
    hide KeyOf;
    hide BodyOf;
    hide VerifySha256;
  }

  lemma TryStep(e: Env, st: Session, p: RecoveryPackage)
    requires Running(e, st) && Mine(e, st).phase == Trying(p) && HasNextKey(Mine(e, st).work)
    requires var work := Mine(e, st).work;
             RestoreFromPackage(e.w, true, NextArn(work), work.settings.context, p, PublicKey(e.w, work)).Ok?
    ensures var t := Act(e, st, TryRestore(e.me));
            && Running(e, t) && Mine(e, t) == AfterTry(e.w, Mine(e, st))
            && t.sys.store == st.sys.store && t.sys.inFlight == st.sys.inFlight
  {
    hide KeyOf;
    hide BodyOf;
    hide RestoreFromPackage;
    hide AfterTry;
  }

  lemma GenerateStep(e: Env, st: Session, reply: DataKeyReply, nonce: Bytes12)
    requires Running(e, st) && Mine(e, st).phase == Generating && HasNextKey(Mine(e, st).work)
    requires reply.keyId == NextArn(Mine(e, st).work) && SupportedKeyLength(reply.plain) && KmsArn.DisplayId(reply.keyId).Ok?
    ensures var t := Act(e, st, Generate(e.me, reply.plain, reply.blob, reply.keyId, nonce));
            var p := BuildPackage(e.w, reply.plain, reply.blob, nonce, Mine(e, st).work.seed);
            && Running(e, t) && Mine(e, t) == Process(Mine(e, st).work, Ready(PackageItem(p)))
            && t.sys.store == st.sys.store && t.sys.inFlight == st.sys.inFlight
  {
    hide BuildPackage;
  }

  lemma SpawnStep(e: Env, st: Session, settings: Settings, seed: Bytes32)
    requires !Running(e, st) && ValidateConfiguration(settings).Ok?
    ensures var t := Act(e, st, Spawn(e.me, settings, seed));
            && Running(e, t) && Mine(e, t) == Process(Work(settings, seed, []), Checking)
            && t.sys.store == st.sys.store && t.sys.inFlight == st.sys.inFlight
  {
    hide ValidateConfiguration;
  }

  lemma CheckStep(e: Env, st: Session)
    requires Running(e, st) && Mine(e, st).phase == Checking
    requires ManifestKey(Mine(e, st).work.settings.prefix) !in st.sys.store
    ensures var t := Act(e, st, CheckAbsent(e.me));
            && Running(e, t) && Mine(e, t) == Process(Mine(e, st).work, Generating)
            && t.sys.store == st.sys.store && t.sys.inFlight == st.sys.inFlight
  {
    hide ManifestKey;
  }

  lemma StopStep(e: Env, st: Session)
    requires Running(e, st) && Mine(e, st).phase != Committed
    ensures var t := Act(e, st, Stop(e.me));
            && Running(e, t) && Mine(e, t) == Process(Mine(e, st).work, Stopped)
            && t.sys.store == st.sys.store && t.sys.inFlight == st.sys.inFlight
  {
  }

  // ----- what the steps achieve -----

  predicate Writable(site: Site) {
    site.config.settings.startupMode == InitKey
  }

  /** The process still has this work and has not committed. */
  predicate Unfinished(e: Env, st: Session, work: Work) {
    Running(e, st) && Mine(e, st).work == work && Mine(e, st).phase != Committed
  }

  lemma TurnMine(e: Env, st: Session)
    ensures Watches(e, st, Turn(e, st))
    ensures Running(e, st) <==> Running(e, Turn(e, st))
    ensures Running(e, st) ==> Mine(e, Turn(e, st)) == Mine(e, st)
  {
    hide Turn;
    TurnWatches(e, st);
    WatchMine(e, st, Turn(e, st));
  }

  lemma WatchMine(e: Env, a: Session, b: Session)
    requires Watches(e, a, b)
    ensures Running(e, a) <==> Running(e, b)
    ensures Running(e, a) ==> Mine(e, b) == Mine(e, a)
  {
    hide Follows;
    hide Sourced;
    SessionKeepsMine(e, a, b, {});
  }

  lemma SaveRunMine(e: Env, st: Session, write: Write)
    requires Running(e, st) && write in st.sys.inFlight && write.Own?
    ensures var (st1, r) := SaveRun(e, st, write, 1);
            && Progress(e, st, st1, true) && Running(e, st1) && Mine(e, st1) == Mine(e, st)
            && (r.Ok? ==> Stored(e.w, st1.sys.store, write))
  {
    hide SaveRun;
    hide Follows;
    hide Sourced;
    hide Progress;
    hide Stored;
    var st1 := SaveRun(e, st, write, 1).0;
    SaveFollows(e, st, write, 1);
    SaveMeaning(e, st, write, 1);
    ProgressSave(e, st, st1, write);
    SessionKeepsMine(e, st, st1, {Land(write)});
  }

  /** A save either completes, with the item stored and the process past it, or leaves the process unfinished. */
  lemma SaveItemMeaning(site: Site, st: Session, item: Item)
    requires Running(site.env, st) && Mine(site.env, st).phase == Ready(item)
    ensures var (st1, r) := SaveItemRun(site, st, item); var work := Mine(site.env, st).work;
            && Progress(site.env, st, st1, Writable(site))
            && (r.Ok? ==>
                  && Writable(site) && Running(site.env, st1)
                  && Mine(site.env, st1) == Process(work, AfterAcknowledge(item))
                  && Stored(site.env.w, st1.sys.store, Own(work, item)))
            && (r.Err? ==> Unfinished(site.env, st1, work))
  {
    hide Turn;
    hide Act;
    hide SaveRun;
    hide Progress;
    hide Watches;
    hide KeyOf;
    hide BodyOf;
    hide Stored;
    var e, work := site.env, Mine(site.env, st).work;
    var write := Own(work, item);
    var st1 := Turn(e, st);
    TurnMine(e, st);
    ProgressWatch(e, st, st1, Writable(site));
    var st2 := Act(e, st1, Admit(e.me));
    AdmitStep(e, st1, item);
    if Writable(site) {
      ProgressAct(e, st1, Admit(e.me), true);
      ProgressTrans(e, st, st1, st2, true);
      SaveRunMine(e, st2, write);
      var (st3, r) := SaveRun(e, st2, write, 1);
      ProgressTrans(e, st, st2, st3, true);
      if r.Ok? {
        AcknowledgeStep(e, st3, item);
        ProgressAct(e, st3, Acknowledge(e.me), true);
        ProgressTrans(e, st, st3, Act(e, st3, Acknowledge(e.me)), true);
      }
    }
  }

  /** A save that does not pass the broker's gates has no effect at all. */
  lemma SaveItemGated(site: Site, st: Session, item: Item)
    requires Running(site.env, st)
    requires var key := KeyOf(site.env.w, Own(Mine(site.env, st).work, item)); var c := site.config;
             || (c.allowedCid != None && site.peerCid != c.allowedCid)
             || c.settings.startupMode != InitKey
             || Mine(site.env, st).work.settings.bucket != c.settings.bucket
             || !(c.settings.prefix + "/" <= key)
    ensures SaveItemRun(site, st, item).0 == Turn(site.env, st) && SaveItemRun(site, st, item).1.Err?
  {
    hide Turn;
    hide Act;
    hide KeyOf;
    hide BodyOf;
    hide SaveRun;
  }

  /** A request whose answer is lost after it was taken on leaves the write in flight, to land whenever it may. */
  lemma LostSaveStaysInFlight(site: Site, st: Session, item: Item)
    requires Running(site.env, st) && Mine(site.env, st).phase == Ready(item)
    requires var e, own := site.env, Own(Mine(site.env, st).work, item);
             var fate := e.climate.fate(st.ops, Call(KeyOf(e.w, own)));
             && !fate.Answered? && fate.applied
             && Broker.Dispatch(site.config, Broker.Connection(site.peerCid,
                  Broker.SaveObjectIfAbsent(own.work.settings.bucket, KeyOf(e.w, own), BodyOf(e.w, own)))).Save?
    ensures var (end, r) := SaveItemRun(site, st, item);
            r == Err(Transport) && Own(Mine(site.env, st).work, item) in end.sys.inFlight
  {
    hide Turn;
    hide Act;
    hide KeyOf;
    hide BodyOf;
    hide Watches;
    hide Broker.Dispatch;
    TurnMine(site.env, st);
    AdmitStep(site.env, Turn(site.env, st), item);
  }

  /** The save of an item that reaches the broker is what the broker makes of the request, store and result alike. */
  lemma SaveItemIsServed(site: Site, st: Session, item: Item)
    requires Running(site.env, st) && Mine(site.env, st).phase == Ready(item)
    requires var e, own := site.env, Own(Mine(site.env, st).work, item);
             && e.climate.fate(st.ops, Call(KeyOf(e.w, own))).Answered?
             && Broker.Dispatch(site.config, Broker.Connection(site.peerCid,
                  Broker.SaveObjectIfAbsent(own.work.settings.bucket, KeyOf(e.w, own), BodyOf(e.w, own)))).Save?
             && UsedHere(e, Act(e, Turn(e, st), Admit(e.me)), Foreign(KeyOf(e.w, own), BodyOf(e.w, own)))
    ensures var e, own := site.env, Own(Mine(site.env, st).work, item);
            var (end, r) := SaveItemRun(site, st, item);
            var (served, s) := Broker.ServeSave(e, Act(e, Turn(e, st), Admit(e.me)), KeyOf(e.w, own), BodyOf(e.w, own));
            r == s && end.sys.store == served.sys.store
  {
    hide Turn;
    hide Act;
    hide SaveRun;
    hide Progress;
    hide KeyOf;
    hide BodyOf;
    hide UsedHere;
    hide Watches;
    hide Broker.Dispatch;
    hide Broker.ServeSave;
    var e, own := site.env, Own(Mine(site.env, st).work, item);
    var st1 := Turn(e, st);
    TurnMine(e, st);
    AdmitStep(e, st1, item);
    var st2 := Act(e, st1, Admit(e.me));
    Broker.ServedSaveIsOwnSave(e, st2, own);
    SaveRunMine(e, st2, own);
    var (st3, r) := SaveRun(e, st2, own, 1);
    if r.Ok? {
      AcknowledgeStep(e, st3, item);
      assert r.value == ();
    }
  }

  /** The store holds, under the name of this write, an object with the digest of its body. */
  ghost predicate HashStored(w: World, store: Store, write: Write) {
    KeyOf(w, write) in store && Sha256Hex(w, store[KeyOf(w, write)]) == Sha256Hex(w, BodyOf(w, write))
  }

  lemma VerifyItemMeaning(site: Site, st: Session, item: Item)
    requires Running(site.env, st) && Mine(site.env, st).phase == Verifying(item) && !item.ManifestItem?
    ensures var (st1, r) := VerifyItemRun(site, st, item); var work := Mine(site.env, st).work;
            && Progress(site.env, st, st1, Writable(site))
            && (r.Ok? ==>
                  && Running(site.env, st1) && Mine(site.env, st1) == Process(work, AfterVerify(item))
                  && HashStored(site.env.w, st1.sys.store, Own(work, item)))
            && (r.Err? ==> Unfinished(site.env, st1, work))
  {
    hide Act;
    hide ClientLoad;
    hide Progress;
    hide Watches;
    hide KeyOf;
    hide BodyOf;
    hide Sha256Hex;
    var e, work := site.env, Mine(site.env, st).work;
    var key := KeyOf(e.w, Own(work, item));
    var (st1, loaded) := ClientLoad(site, st, work.settings.bucket, key);
    ClientLoadWatches(site, st, work.settings.bucket, key);
    WatchMine(e, st, st1);
    ProgressWatch(e, st, st1, Writable(site));
    if VerifyItemRun(site, st, item).1.Ok? {
      VerifyStep(e, st1, item);
      ProgressAct(e, st1, Verify(e.me), Writable(site));
      ProgressTrans(e, st, st1, Act(e, st1, Verify(e.me)), Writable(site));
    }
  }

  lemma GenerateMeaning(site: Site, st: Session)
    requires Running(site.env, st) && Mine(site.env, st).phase == Generating && HasNextKey(Mine(site.env, st).work)
    ensures var (st1, r) := GenerateRun(site, st); var work := Mine(site.env, st).work;
            && Progress(site.env, st, st1, Writable(site))
            && (r.Ok? ==> Running(site.env, st1) && Mine(site.env, st1) == Process(work, Ready(PackageItem(r.value))))
            && (r.Err? ==> Unfinished(site.env, st1, work))
  {
    hide Turn;
    hide Act;
    hide Progress;
    hide Watches;
    hide BuildPackage;
    var e := site.env;
    var st1, end := Turn(e, st), GenerateRun(site, st).0;
    TurnMine(e, st);
    ProgressWatch(e, st, st1, Writable(site));
    if GenerateRun(site, st).1.Ok? {
      var reply, nonce := e.climate.dataKey(st.ops, NextArn(Mine(e, st).work)), e.climate.nonce(st.ops);
      GenerateStep(e, st1, reply, nonce);
      ProgressGenerate(e, st, st1, Generate(e.me, reply.plain, reply.blob, reply.keyId, nonce), Writable(site));
    }
  }

  /** A data key is used exactly if KMS answers with this key id and a key of 16 or 32 bytes, and the ARN has a name. */
  lemma GenerateExact(site: Site, st: Session)
    requires Running(site.env, st) && HasNextKey(Mine(site.env, st).work)
    ensures var arn := NextArn(Mine(site.env, st).work); var reply := site.env.climate.dataKey(st.ops, arn);
            GenerateRun(site, st).1.Ok? <==>
              && site.env.climate.fate(st.ops, GenerateKey(arn)).Answered? && reply.keyId == arn
              && (|reply.plain| == 16 || |reply.plain| == 32) && KmsArn.DisplayId(arn).Ok?
  {
    hide Turn;
    hide Act;
    hide BuildPackage;
    hide KmsArn.DisplayId;
  }

  lemma TrialMeaning(site: Site, st: Session, p: RecoveryPackage)
    requires Running(site.env, st) && Mine(site.env, st).phase == Trying(p) && HasNextKey(Mine(site.env, st).work)
    ensures var (st1, r) := TrialRun(site, st, p); var work := Mine(site.env, st).work;
            && Progress(site.env, st, st1, Writable(site))
            && (r.Ok? ==> Running(site.env, st1) && Mine(site.env, st1) == AfterTry(site.env.w, Process(work, Trying(p))))
            && (r.Err? ==> Unfinished(site.env, st1, work))
  {
    hide Turn;
    hide Act;
    hide Progress;
    hide Watches;
    hide AfterTry;
    var e, work := site.env, Mine(site.env, st).work;
    TurnMine(e, st);
    WatchesSame(e, st);
    var (st1, r) := TryPackage(e, st, NextArn(work), work.settings.context, p, PublicKey(e.w, work));
    ProgressWatch(e, st, st1, Writable(site));
    UpOnly(e.w, NextArn(work), work.settings.context, p, PublicKey(e.w, work));
    hide RestoreFromPackage;
    if r.Ok? {
      TryStep(e, st1, p);
      ProgressAct(e, st1, TryRestore(e.me), Writable(site));
      ProgressTrans(e, st, st1, Act(e, st1, TryRestore(e.me)), Writable(site));
    }
  }

  lemma UpOnly(w: World, arn: string, context: Context, p: RecoveryPackage, expected: Bytes32)
    ensures RestoreFromPackage(w, false, arn, context, p, expected).Err?
  {
  }

  // ----- one package, all packages, the whole initialisation -----

  function PackageRun(site: Site, st: Session): (Session, Result<(), Error>)
    requires Running(site.env, st) && Mine(site.env, st).phase == Generating && HasNextKey(Mine(site.env, st).work)
  {
    GenerateMeaning(site, st);
    var (st1, generated) := GenerateRun(site, st);
    match generated
    case Err(e) => (st1, Err(e))
    case Ok(p) =>
      SaveItemMeaning(site, st1, PackageItem(p));
      var (st2, saved) := SaveItemRun(site, st1, PackageItem(p));
      if saved.Err? then (st2, saved)
      else
        VerifyItemMeaning(site, st2, PackageItem(p));
        var (st3, verified) := VerifyItemRun(site, st2, PackageItem(p));
        if verified.Err? then (st3, verified) else TrialRun(site, st3, p)
  }

  /** The same seed and settings, one reference more. */
  predicate OneMore(e: Env, before: Process, after: Process) {
    && after.work.settings == before.work.settings && after.work.seed == before.work.seed
    && |after.work.references| == |before.work.references| + 1
    && after.phase == if HasNextKey(after.work) then Generating else Ready(PublicItem)
  }

  lemma PackageMeaning(site: Site, st: Session)
    requires Running(site.env, st) && Mine(site.env, st).phase == Generating && HasNextKey(Mine(site.env, st).work)
    ensures var (st1, r) := PackageRun(site, st); var before := Mine(site.env, st);
            && Progress(site.env, st, st1, Writable(site))
            && (r.Ok? ==> Writable(site) && Running(site.env, st1) && OneMore(site.env, before, Mine(site.env, st1)))
            && (r.Err? ==> Unfinished(site.env, st1, before.work))
  {
    hide Progress;
    hide GenerateRun;
    hide SaveItemRun;
    hide VerifyItemRun;
    hide TrialRun;
    hide Stored;
    hide KeyOf;
    var e, wr := site.env, Writable(site);
    var (st1, generated) := GenerateRun(site, st);
    GenerateMeaning(site, st);
    if generated.Ok? {
      var p := generated.value;
      var (st2, saved) := SaveItemRun(site, st1, PackageItem(p));
      SaveItemMeaning(site, st1, PackageItem(p));
      ProgressTrans(e, st, st1, st2, wr);
      if saved.Ok? {
        var (st3, verified) := VerifyItemRun(site, st2, PackageItem(p));
        VerifyItemMeaning(site, st2, PackageItem(p));
        ProgressTrans(e, st, st2, st3, wr);
        if verified.Ok? {
          TrialMeaning(site, st3, p);
          ProgressTrans(e, st, st3, TrialRun(site, st3, p).0, wr);
        }
      }
    }
  }

  function PackagesRun(site: Site, st: Session): (Session, Result<(), Error>)
    requires Running(site.env, st)
    requires Mine(site.env, st).phase == if HasNextKey(Mine(site.env, st).work) then Generating else Ready(PublicItem)
    decreases |Mine(site.env, st).work.settings.kmsKeys| - |Mine(site.env, st).work.references|
  {
    if !HasNextKey(Mine(site.env, st).work) then (st, Ok(()))
    else
      PackageMeaning(site, st);
      var (st1, r) := PackageRun(site, st);
      if r.Err? then (st1, r) else PackagesRun(site, st1)
  }

  /** The same seed and settings, all references made. */
  predicate AllPackaged(before: Process, after: Process) {
    && after.work.settings == before.work.settings && after.work.seed == before.work.seed
    && !HasNextKey(after.work) && after.phase == Ready(PublicItem)
  }

  /** Still an unfinished process with these settings and seed. */
  predicate Pending(e: Env, st: Session, settings: Settings, seed: Bytes32) {
    && Running(e, st) && Mine(e, st).work.settings == settings && Mine(e, st).work.seed == seed
    && Mine(e, st).phase != Committed
  }

  lemma {:induction false} PackagesMeaning(site: Site, st: Session)
    requires Running(site.env, st)
    requires Mine(site.env, st).phase == if HasNextKey(Mine(site.env, st).work) then Generating else Ready(PublicItem)
    ensures var (st1, r) := PackagesRun(site, st); var before := Mine(site.env, st);
            && Progress(site.env, st, st1, Writable(site))
            && (r.Ok? ==> Running(site.env, st1) && AllPackaged(before, Mine(site.env, st1)))
            && (r.Err? ==> Pending(site.env, st1, before.work.settings, before.work.seed))
    decreases |Mine(site.env, st).work.settings.kmsKeys| - |Mine(site.env, st).work.references|
  {
    hide Progress;
    hide PackageRun;
    WatchesSame(site.env, st);
    ProgressWatch(site.env, st, st, Writable(site));
    if HasNextKey(Mine(site.env, st).work) {
      PackageMeaning(site, st);
      var (st1, r) := PackageRun(site, st);
      if r.Ok? {
        PackagesMeaning(site, st1);
        ProgressTrans(site.env, st, st1, PackagesRun(site, st1).0, Writable(site));
      }
    }
  }

  /** Public document, then manifest. */
  function PublishRun(site: Site, st: Session): (Session, Result<(), Error>)
    requires Running(site.env, st) && Mine(site.env, st).phase == Ready(PublicItem)
  {
    SaveItemMeaning(site, st, PublicItem);
    var (st1, saved) := SaveItemRun(site, st, PublicItem);
    if saved.Err? then (st1, saved)
    else
      VerifyItemMeaning(site, st1, PublicItem);
      var (st2, verified) := VerifyItemRun(site, st1, PublicItem);
      if verified.Err? then (st2, verified) else SaveItemRun(site, st2, ManifestItem)
  }

  lemma PublishMeaning(site: Site, st: Session)
    requires Running(site.env, st) && Mine(site.env, st).phase == Ready(PublicItem)
    ensures var (st1, r) := PublishRun(site, st); var work := Mine(site.env, st).work;
            && Progress(site.env, st, st1, Writable(site))
            && (r.Ok? ==>
                  && Writable(site) && Running(site.env, st1) && Mine(site.env, st1) == Process(work, Committed)
                  && Stored(site.env.w, st1.sys.store, Own(work, PublicItem))
                  && Stored(site.env.w, st1.sys.store, Own(work, ManifestItem)))
            && (r.Err? ==> Unfinished(site.env, st1, work))
  {
    hide Progress;
    hide SaveItemRun;
    hide VerifyItemRun;
    hide Stored;
    hide KeyOf;
    hide HashStored;
    var e, wr, work := site.env, Writable(site), Mine(site.env, st).work;
    var (st1, saved) := SaveItemRun(site, st, PublicItem);
    SaveItemMeaning(site, st, PublicItem);
    if saved.Ok? {
      var (st2, verified) := VerifyItemRun(site, st1, PublicItem);
      VerifyItemMeaning(site, st1, PublicItem);
      ProgressTrans(e, st, st1, st2, wr);
      if verified.Ok? {
        var end := SaveItemRun(site, st2, ManifestItem).0;
        SaveItemMeaning(site, st2, ManifestItem);
        ProgressTrans(e, st, st2, end, wr);
        ProgressTrans(e, st1, st2, end, wr);
        ProgressGrows(e, st1, end, wr);
        StoredGrows(e.w, st1.sys.store, end.sys.store, Own(work, PublicItem));
      }
    }
  }

  lemma StoredGrows(w: World, earlier: Store, later: Store, write: Write)
    requires Extends(earlier, later) && Stored(w, earlier, write)
    ensures Stored(w, later, write)
  {
    hide KeyOf;
    hide BodyOf;
  }

  function WriteAllRun(site: Site, st: Session): (Session, Result<(), Error>)
    requires Running(site.env, st)
    requires Mine(site.env, st).phase == if HasNextKey(Mine(site.env, st).work) then Generating else Ready(PublicItem)
  {
    PackagesMeaning(site, st);
    var (st1, packaged) := PackagesRun(site, st);
    if packaged.Err? then (st1, packaged) else PublishRun(site, st1)
  }

  lemma WriteAllMeaning(site: Site, st: Session)
    requires Running(site.env, st)
    requires Mine(site.env, st).phase == if HasNextKey(Mine(site.env, st).work) then Generating else Ready(PublicItem)
    ensures var (st1, r) := WriteAllRun(site, st); var work := Mine(site.env, st).work;
            && Progress(site.env, st, st1, Writable(site))
            && (r.Ok? ==>
                  && Writable(site) && Running(site.env, st1) && Mine(site.env, st1).phase == Committed
                  && Mine(site.env, st1).work.settings == work.settings && Mine(site.env, st1).work.seed == work.seed)
            && (r.Err? ==> Pending(site.env, st1, work.settings, work.seed))
  {
    hide Progress;
    hide PackagesRun;
    hide PublishRun;
    PackagesMeaning(site, st);
    var (st1, packaged) := PackagesRun(site, st);
    if packaged.Ok? {
      PublishMeaning(site, st1);
      ProgressTrans(site.env, st, st1, PublishRun(site, st1).0, Writable(site));
    }
  }

  /** The manifest check that comes first. */
  function CheckRun(site: Site, settings: Settings, seed: Bytes32, st: Session): (Session, Result<(), Error>) {
    var e := site.env;
    var (st1, loaded) := ClientLoad(site, Act(e, st, Spawn(e.me, settings, seed)), settings.bucket,
                                    ManifestKey(settings.prefix));
    match loaded
    case Err(error) => (st1, Err(error))
    case Ok(Some(_)) => (st1, Err(ManifestExists))
    case Ok(None) => (Act(e, st1, CheckAbsent(e.me)), Ok(()))
  }

  lemma CheckMeaning(site: Site, settings: Settings, seed: Bytes32, st: Session)
    requires !Running(site.env, st) && ValidateConfiguration(settings).Ok?
    ensures var (st1, r) := CheckRun(site, settings, seed, st);
            && Progress(site.env, st, st1, false)
            && Running(site.env, st1) && Mine(site.env, st1).work == Work(settings, seed, [])
            && (r.Ok? ==> Mine(site.env, st1).phase == Generating && ManifestKey(settings.prefix) !in st1.sys.store)
            && (r.Err? ==> Mine(site.env, st1).phase == Checking)
            && (ManifestKey(settings.prefix) in st.sys.store ==> r.Err?)
  {
    hide Progress;
    hide Watches;
    hide ClientLoad;
    hide Act;
    hide ManifestKey;
    hide ValidateConfiguration;
    var e, key := site.env, ManifestKey(settings.prefix);
    var st0 := Act(e, st, Spawn(e.me, settings, seed));
    SpawnStep(e, st, settings, seed);
    ProgressAct(e, st, Spawn(e.me, settings, seed), false);
    var (st1, loaded) := ClientLoad(site, st0, settings.bucket, key);
    ClientLoadWatches(site, st0, settings.bucket, key);
    WatchMine(e, st0, st1);
    WatchesGrows(e, st0, st1);
    ProgressWatch(e, st0, st1, false);
    ProgressTrans(e, st, st0, st1, false);
    if loaded == Ok(None) {
      CheckStep(e, st1);
      ProgressAct(e, st1, CheckAbsent(e.me), false);
      ProgressTrans(e, st, st1, Act(e, st1, CheckAbsent(e.me)), false);
    }
  }

  /** The whole of initialisation; an error return is the process stopping. */
  function InitialiseRun(site: Site, settings: Settings, seed: Bytes32, st: Session): (Session, Result<KeyPair, Error>)
    requires !Running(site.env, st) && ValidateConfiguration(settings).Ok?
  {
    var e := site.env;
    CheckMeaning(site, settings, seed, st);
    var (st1, checked) := CheckRun(site, settings, seed, st);
    if checked.Err? then (Act(e, st1, Stop(e.me)), Err(checked.error))
    else
      var (st2, written) := WriteAllRun(site, st1);
      if written.Err? then (Act(e, st2, Stop(e.me)), Err(written.error))
      else
        var publicKey := e.w.publicKeyOf(seed);
        (st2, Ok(KeyPair(publicKey, Sha256Hex(e.w, publicKey), "")))
  }

  /**
   * Every run of initialisation is a run of the commit protocol. Success is the committed state of this process, in
   * an init-key deployment; failure is its stopped state. If a manifest was already visible, or the broker is in
   * serve mode, it always fails and writes nothing.
   */
  lemma InitialiseMeaning(site: Site, settings: Settings, seed: Bytes32, st: Session)
    requires !Running(site.env, st) && ValidateConfiguration(settings).Ok?
    ensures var (st1, r) := InitialiseRun(site, settings, seed, st); var e := site.env;
            && Progress(e, st, st1, Writable(site) && ManifestKey(settings.prefix) !in st.sys.store)
            && Running(e, st1) && Mine(e, st1).work.settings == settings && Mine(e, st1).work.seed == seed
            && (r.Ok? ==>
                  && Writable(site) && Mine(e, st1).phase == Committed
                  && r.value.publicKey == PublicKey(e.w, Mine(e, st1).work)
                  && r.value.fingerprint == Sha256Hex(e.w, r.value.publicKey))
            && (r.Err? ==> Mine(e, st1).phase == Stopped)
            && (ManifestKey(settings.prefix) in st.sys.store || !Writable(site) ==> r.Err?)
  {
    hide Progress;
    hide CheckRun;
    hide WriteAllRun;
    hide Act;
    hide ManifestKey;
    hide ValidateConfiguration;
    var e, writes := site.env, Writable(site) && ManifestKey(settings.prefix) !in st.sys.store;
    CheckMeaning(site, settings, seed, st);
    ConfiguredKeys(settings);
    var (st1, checked) := CheckRun(site, settings, seed, st);
    if writes {
      ProgressMore(e, st, st1);
    }
    if checked.Err? {
      StopStep(e, st1);
      ProgressAct(e, st1, Stop(e.me), writes);
      ProgressTrans(e, st, st1, Act(e, st1, Stop(e.me)), writes);
    } else {
      WriteAllMeaning(site, st1);
      var (st2, written) := WriteAllRun(site, st1);
      ProgressTrans(e, st, st1, st2, writes);
      if written.Err? {
        StopStep(e, st2);
        ProgressAct(e, st2, Stop(e.me), writes);
        ProgressTrans(e, st, st2, Act(e, st2, Stop(e.me)), writes);
      }
    }
  }

  /** With a manifest in the store an initialiser whose check is answered reports just that. */
  lemma VisibleManifestIsReported(site: Site, settings: Settings, seed: Bytes32, st: Session)
    requires !Running(site.env, st) && ValidateConfiguration(settings).Ok? && Served(site, settings)
    requires Reachable(site.env.climate, ManifestKey(settings.prefix)) && ManifestKey(settings.prefix) in st.sys.store
    ensures InitialiseRun(site, settings, seed, st).1 == Err(ManifestExists)
  {
    assert Below(settings.prefix, ManifestKey(settings.prefix));
    hide ClientLoad;
    hide Act;
    hide ManifestKey;
    hide ValidateConfiguration;
    hide Watches;
    hide WriteAllRun;
    var e, key := site.env, ManifestKey(settings.prefix);
    var st0 := Act(e, st, Spawn(e.me, settings, seed));
    SpawnStep(e, st, settings, seed);
    ReachableLoad(site, settings, st0, key);
    ClientLoadWatches(site, st0, settings.bucket, key);
    WatchesGrows(e, st0, ClientLoad(site, st0, settings.bucket, key).0);
  }

  /**
   * Every data key that initialisation wraps with is one that KMS answered, during the call, for exactly that key id; the nonce is drawn with
   * it.
   */
  lemma DataKeysAreOfTheirArn(site: Site, settings: Settings, seed: Bytes32, st: Session, i: nat)
    requires !Running(site.env, st) && ValidateConfiguration(settings).Ok?
    requires var end := InitialiseRun(site, settings, seed, st).0;
             |st.trace| <= i < |end.trace| && end.trace[i].Generate? && end.trace[i].pid == site.env.me
    ensures var end := InitialiseRun(site, settings, seed, st).0; var a := end.trace[i];
            exists n: nat ::
              st.ops <= n < end.ops && site.env.climate.fate(n, GenerateKey(a.keyId)).Answered?
              && site.env.climate.dataKey(n, a.keyId) == DataKeyReply(a.plain, a.blob, a.keyId)
              && site.env.climate.nonce(n) == a.nonce
  {
    hide InitialiseRun;
    hide ValidateConfiguration;
    hide RunAll;
    InitialiseMeaning(site, settings, seed, st);
    var end := InitialiseRun(site, settings, seed, st).0;
    assert FromKms(site.env, st.ops, end.ops, end.trace[i]);
    var a := end.trace[i];
    var n: nat :| st.ops <= n < end.ops && KmsAnswered(site.env, n, a.keyId, a.plain, a.blob, a.nonce);
    assert site.env.climate.fate(n, GenerateKey(a.keyId)).Answered?;
  }

  /**
   * From success to the published key: in a trusted surrounding, what initialisation returns is what the store
   * publishes, together with a complete key set.
   */
  lemma InitialisedKeyIsPublished(site: Site, settings: Settings, seed: Bytes32, st: Session)
    requires !Running(site.env, st) && ValidateConfiguration(settings).Ok?
    requires Lawful(site.env.w) && Inv(site.env.w, st.sys) && TrustedClimate(site.env.climate)
    ensures var (st1, r) := InitialiseRun(site, settings, seed, st);
            && Inv(site.env.w, st1.sys)
            && (r.Ok? ==> CompleteKeySet(site.env.w, st1.sys.store, settings, r.value.publicKey))
  {
    hide InitialiseRun;
    hide Progress;
    hide ManifestKey;
    hide ValidateConfiguration;
    hide Lawful;
    var e := site.env;
    InitialiseMeaning(site, settings, seed, st);
    var (st1, r) := InitialiseRun(site, settings, seed, st);
    ProgressKeepsInv(e, st, st1, Writable(site) && ManifestKey(settings.prefix) !in st.sys.store);
    if r.Ok? {
      CommittedIsComplete(e.w, st1.sys, e.me);
    }
  }

  lemma ProcessIsGood(w: World, s: System, pid: nat)
    requires Inv(w, s) && pid in s.processes
    ensures ProcessGood(w, s.store, s.processes[pid])
  {
    hide ProcessGood;
  }

  lemma CommittedGood(w: World, s: System, pid: nat)
    requires Inv(w, s) && pid in s.processes && s.processes[pid].phase.Committed?
    ensures var work := s.processes[pid].work;
            ItemGood(w, s.store, work, ManifestItem) && Stored(w, s.store, Own(work, ManifestItem))
  {
    hide Inv;
    hide ItemGood;
    hide WorkGood;
    hide Stored;
    ProcessIsGood(w, s, pid);
  }

  lemma CommittedIsComplete(w: World, s: System, pid: nat)
    requires Lawful(w) && Inv(w, s) && pid in s.processes && s.processes[pid].phase.Committed?
    ensures CompleteKeySet(w, s.store, s.processes[pid].work.settings, PublicKey(w, s.processes[pid].work))
  {
    hide CompleteKeySet;
    hide ItemGood;
    hide Stored;
    hide Lawful;
    hide Inv;
    CommittedGood(w, s, pid);
    StoredManifestIsComplete(w, s.store, s.processes[pid].work);
  }

  lemma ConfiguredKeys(settings: Settings)
    requires ValidateConfiguration(settings).Ok?
    ensures |settings.kmsKeys| == 2
  {
  }

  // ----- when initialisation succeeds -----

  /** KMS behaves: data keys come from the requested key, have a supported length, and decrypt back. */
  ghost predicate HonestKms(e: Env, settings: Settings) {
    forall n, i :: 0 <= i < |settings.kmsKeys| ==>
      var arn := settings.kmsKeys[i].arn;
      var reply := e.climate.dataKey(n, arn);
      && reply.keyId == arn && SupportedKeyLength(reply.plain)
      && e.w.kmsDecrypt(arn, settings.context, reply.blob) == Some(reply.plain)
  }

  ghost predicate NamedArns(settings: Settings) {
    forall i :: 0 <= i < |settings.kmsKeys| ==> KmsArn.DisplayId(settings.kmsKeys[i].arn).Ok?
  }

  /** The broker and KMS answer, and connections to S3 recover. */
  ghost predicate Responsive(climate: Climate) {
    && (forall n, key :: climate.fate(n, Call(key)).Answered?)
    && (forall n, arn :: climate.fate(n, GenerateKey(arn)).Answered?)
    && (forall n, arn :: climate.fate(n, DecryptKey(arn)).Answered?)
    && (forall key :: Recovering(climate, GetObject(key)))
    && (forall key :: Recovering(climate, PutObject(key)))
  }

  /**
   * The services work for this enclave. Others may do anything but forge a manifest: other initialisers run, crash and
   * commit, their writes, and those of processes long dead, land at any moment, and outside parties add objects.
   */
  ghost predicate Working(site: Site, settings: Settings) {
    && TrustedClimate(site.env.climate) && Responsive(site.env.climate) && HonestKms(site.env, settings)
    && Served(site, settings) && Writable(site) && Lawful(site.env.w)
  }

  /** Nobody else's manifest for this prefix lands. */
  ghost predicate NoRivalManifest(e: Env, prefix: string) {
    forall n: nat, write :: Land(write) in e.climate.others(n) ==> KeyOf(e.w, write) != ManifestKey(prefix)
  }

  /** No two values of the run collide under SHA-256, and no outside party occupies the name of a leaf. */
  ghost predicate NoConflict(e: Env, st: Session) {
    CollisionFree(e.w, HashedValues(e.w, st.sys)) && Unoccupied(e.w, st.sys)
  }

  lemma HashedValuesGrow(e: Env, a: Session, b: Session)
    requires a.sys.inFlight <= b.sys.inFlight && NoConflict(e, b)
    ensures NoConflict(e, a)
  {
    hide KeyOf;
    hide BodyOf;
    assert HashedValues(e.w, a.sys) <= HashedValues(e.w, b.sys);
  }

  lemma ItemBelow(w: World, store: Store, work: Work, item: Item)
    requires ItemGood(w, store, work, item)
    ensures Below(work.settings.prefix, KeyOf(w, Own(work, item)))
    ensures !item.ManifestItem? ==> KeyOf(w, Own(work, item)) != ManifestKey(work.settings.prefix)
  {
    hide ItemGood;
    ItemNameWellFormed(w, store, work, item);
    hide ItemName;
    var name := ItemName(w, work, item).value;
    if !item.ManifestItem? && ObjectNames.Render(name) == ManifestKey(work.settings.prefix) {
      ObjectNames.RenderInjective(name, ObjectNames.Manifest(work.settings.prefix));
    }
  }

  lemma MineGood(e: Env, st: Session)
    requires Inv(e.w, st.sys) && Running(e, st)
    ensures ProcessGood(e.w, st.sys.store, Mine(e, st))
  {
    hide ProcessGood;
    hide Inv;
    ProcessIsGood(e.w, st.sys, e.me);
  }

  lemma PhaseItemGood(e: Env, st: Session, item: Item)
    requires Inv(e.w, st.sys) && Running(e, st)
    requires Mine(e, st).phase == Ready(item) || Mine(e, st).phase == Saving(item) || Mine(e, st).phase == Verifying(item)
    ensures ItemGood(e.w, st.sys.store, Mine(e, st).work, item)
    ensures Mine(e, st).phase == Verifying(item) ==> Stored(e.w, st.sys.store, Own(Mine(e, st).work, item))
  {
    hide Inv;
    hide ItemGood;
    hide WorkGood;
    hide Stored;
    MineGood(e, st);
  }

  // ----- the manifest name stays free -----

  /** A stretch of a session: the invariant holds after it, and a free manifest name stays free unless a rival lands. */
  ghost predicate Advances(e: Env, a: Session, b: Session, prefix: string) {
    && Inv(e.w, b.sys) && a.sys.inFlight <= b.sys.inFlight
    && (NoRivalManifest(e, prefix) && ManifestKey(prefix) !in a.sys.store ==> ManifestKey(prefix) !in b.sys.store)
  }

  lemma WatchAdvances(e: Env, a: Session, b: Session, prefix: string)
    requires Lawful(e.w) && TrustedClimate(e.climate) && Inv(e.w, a.sys) && Watches(e, a, b)
    ensures Advances(e, a, b, prefix)
  {
    hide Progress;
    hide Watches;
    hide Inv;
    hide Lawful;
    hide KeyOf;
    hide BodyOf;
    hide ManifestKey;
    ProgressWatch(e, a, b, false);
    ProgressKeepsInv(e, a, b, false);
    ProgressGrows(e, a, b, false);
    if ManifestKey(prefix) !in a.sys.store && ManifestKey(prefix) in b.sys.store {
      QuietAddsNothing(e, a, b, ManifestKey(prefix));
    }
  }

  lemma ActAdvances(e: Env, st: Session, a: Action, prefix: string)
    requires Lawful(e.w) && Inv(e.w, st.sys) && MovesProcess(a, e.me)
    ensures Advances(e, st, Act(e, st, a), prefix)
  {
    hide Inv;
    hide Step;
    hide Lawful;
    hide ManifestKey;
    StepKeepsInv(e.w, st.sys, a);
    StepExtends(e.w, st.sys, a);
    OnlyLandingAdds(e.w, st.sys, a);
  }

  lemma OnlyLandingAdds(w: World, s: System, a: Action)
    requires !a.Land?
    ensures Step(w, s, a).store == s.store
  {
    hide KeyOf;
    hide BodyOf;
  }

  // ----- each step -----

  /** The save of an admitted item: a leaf only fails by a collision, the manifest only against another manifest. */
  lemma AdmittedSave(e: Env, st: Session, item: Item)
    requires Lawful(e.w) && TrustedClimate(e.climate) && Responsive(e.climate) && Inv(e.w, st.sys)
    requires Running(e, st) && Mine(e, st).phase == Saving(item) && Own(Mine(e, st).work, item) in st.sys.inFlight
    ensures var (end, r) := SaveRun(e, st, Own(Mine(e, st).work, item), 1); var work := Mine(e, st).work;
            && Inv(e.w, end.sys) && st.sys.inFlight <= end.sys.inFlight
            && Running(e, end) && Mine(e, end) == Mine(e, st)
            && (r.Ok? <==> Stored(e.w, end.sys.store, Own(work, item)))
            && (if item.ManifestItem? then
                  NoRivalManifest(e, work.settings.prefix) && ManifestKey(work.settings.prefix) !in st.sys.store ==> r.Ok?
                else Advances(e, st, end, work.settings.prefix) && (NoConflict(e, end) ==> r.Ok?))
  {
    hide SaveRun;
    hide Progress;
    hide Inv;
    hide Lawful;
    hide KeyOf;
    hide BodyOf;
    hide ManifestKey;
    hide Recovering;
    hide NoConflict;
    hide ItemGood;
    var work, write := Mine(e, st).work, Own(Mine(e, st).work, item);
    var (end, r) := SaveRun(e, st, write, 1);
    SaveRunMine(e, st, write);
    ProgressKeepsInv(e, st, end, true);
    ProgressGrows(e, st, end, true);
    RecoveringSave(e, st, write);
    PhaseItemGood(e, st, item);
    ItemBelow(e.w, st.sys.store, work, item);
    ManifestKeyOf(e.w, work);
    if ManifestKey(work.settings.prefix) !in st.sys.store && ManifestKey(work.settings.prefix) in end.sys.store {
      SaveFrame(e, st, write, ManifestKey(work.settings.prefix));
    }
    if !item.ManifestItem? && NoConflict(e, end) {
      LeafConflict(e, end, work, item);
    }
  }

  lemma ManifestKeyOf(w: World, work: Work)
    ensures KeyOf(w, Own(work, ManifestItem)) == ManifestKey(work.settings.prefix)
  {
  }

  lemma LeafConflict(e: Env, st: Session, work: Work, item: Item)
    requires Inv(e.w, st.sys) && Own(work, item) in st.sys.inFlight && !item.ManifestItem? && NoConflict(e, st)
    ensures KeyOf(e.w, Own(work, item)) in st.sys.store ==> Stored(e.w, st.sys.store, Own(work, item))
  {
    hide KeyOf;
    hide BodyOf;
    hide Inv;
    LeafNeverConflicts(e.w, st.sys, work, item);
  }

  predicate GatesOpen(site: Site, settings: Settings, work: Work) {
    Served(site, settings) && Writable(site) && work.settings == settings
  }

  lemma SaveAllowed(site: Site, settings: Settings, work: Work, item: Item)
    requires GatesOpen(site, settings, work) && Below(settings.prefix, KeyOf(site.env.w, Own(work, item)))
    ensures Broker.Dispatch(site.config, Broker.Connection(site.peerCid,
              Broker.SaveObjectIfAbsent(settings.bucket, KeyOf(site.env.w, Own(work, item)),
                                        BodyOf(site.env.w, Own(work, item))))).Save?
  {
    hide KeyOf;
    hide BodyOf;
  }

  /** A process of these settings in a good state, at a working site. */
  ghost predicate AtWork(site: Site, settings: Settings, st: Session) {
    && Working(site, settings) && Inv(site.env.w, st.sys)
    && Running(site.env, st) && Mine(site.env, st).work.settings == settings
  }

  /** At a working site a leaf is saved unless it meets a collision, and the manifest unless another one is there. */
  lemma WorkingSaveItem(site: Site, settings: Settings, st: Session, item: Item)
    requires AtWork(site, settings, st) && Mine(site.env, st).phase == Ready(item)
    ensures var (end, r) := SaveItemRun(site, st, item); var e, work := site.env, Mine(site.env, st).work;
            && Inv(e.w, end.sys) && st.sys.inFlight <= end.sys.inFlight
            && (r.Ok? <==> Stored(e.w, end.sys.store, Own(work, item)))
            && (if item.ManifestItem? then
                  NoRivalManifest(e, settings.prefix) && ManifestKey(settings.prefix) !in st.sys.store ==> r.Ok?
                else Advances(e, st, end, settings.prefix) && (NoConflict(e, end) ==> r.Ok?))
  {
    hide Turn;
    hide SaveRun;
    hide KeyOf;
    hide BodyOf;
    hide Inv;
    hide NoConflict;
    hide Act;
    hide ManifestKey;
    hide ItemGood;
    hide Lawful;
    hide Stored;
    hide HonestKms;
    hide Watches;
    hide Recovering;
    hide NoRivalManifest;
    hide Broker.Dispatch;
    var e, work := site.env, Mine(site.env, st).work;
    PhaseItemGood(e, st, item);
    ItemBelow(e.w, st.sys.store, work, item);
    SaveAllowed(site, settings, work, item);
    TurnMine(e, st);
    var st1 := Turn(e, st);
    WatchAdvances(e, st, st1, settings.prefix);
    var st2 := Act(e, st1, Admit(e.me));
    AdmitStep(e, st1, item);
    ActAdvances(e, st1, Admit(e.me), settings.prefix);
    AdmittedSave(e, st2, item);
    var (st3, r) := SaveRun(e, st2, Own(work, item), 1);
    if r.Ok? {
      AcknowledgeStep(e, st3, item);
      ActAdvances(e, st3, Acknowledge(e.me), settings.prefix);
      SameHashes(e, st3, Act(e, st3, Acknowledge(e.me)));
      SameStored(e.w, st3.sys.store, Act(e, st3, Acknowledge(e.me)).sys.store, Own(work, item));
    }
  }

  lemma SameStored(w: World, a: Store, b: Store, write: Write)
    requires a == b
    ensures Stored(w, a, write) <==> Stored(w, b, write)
  {
  }

  lemma SameHashes(e: Env, a: Session, b: Session)
    requires a.sys.inFlight == b.sys.inFlight
    ensures NoConflict(e, a) <==> NoConflict(e, b)
  {
    hide KeyOf;
    hide BodyOf;
    if NoConflict(e, a) { HashedValuesGrow(e, b, a); }
    if NoConflict(e, b) { HashedValuesGrow(e, a, b); }
  }

  lemma WorkingLoad(site: Site, settings: Settings, st: Session, key: string)
    requires Working(site, settings) && Below(settings.prefix, key) && Inv(site.env.w, st.sys)
    ensures var (end, r) := ClientLoad(site, st, settings.bucket, key);
            && r == Ok(Lookup(end.sys.store, key)) && Watches(site.env, st, end) && Advances(site.env, st, end, settings.prefix)
  {
    hide ClientLoad;
    hide Recovering;
    hide Inv;
    hide Lawful;
    hide HonestKms;
    hide Watches;
    hide NoRivalManifest;
    hide ManifestKey;
    ReachableLoad(site, settings, st, key);
    ClientLoadWatches(site, st, settings.bucket, key);
    WatchAdvances(site.env, st, ClientLoad(site, st, settings.bucket, key).0, settings.prefix);
  }

  lemma WorkingVerifyItem(site: Site, settings: Settings, st: Session, item: Item)
    requires AtWork(site, settings, st) && Mine(site.env, st).phase == Verifying(item) && !item.ManifestItem?
    ensures var (end, r) := VerifyItemRun(site, st, item);
            r.Ok? && Advances(site.env, st, end, settings.prefix)
  {
    hide ClientLoad;
    hide KeyOf;
    hide BodyOf;
    hide Inv;
    hide Act;
    hide ManifestKey;
    hide ItemGood;
    hide Watches;
    hide Lawful;
    hide Recovering;
    hide HonestKms;
    hide NoRivalManifest;
    var e, work := site.env, Mine(site.env, st).work;
    PhaseItemGood(e, st, item);
    ItemBelow(e.w, st.sys.store, work, item);
    var key := KeyOf(e.w, Own(work, item));
    WorkingLoad(site, settings, st, key);
    var st1 := ClientLoad(site, st, settings.bucket, key).0;
    WatchesGrows(e, st, st1);
    WatchMine(e, st, st1);
    VerifyStep(e, st1, item);
    ActAdvances(e, st1, Verify(e.me), settings.prefix);
  }

  lemma WorkingGenerate(site: Site, settings: Settings, st: Session)
    requires AtWork(site, settings, st) && NamedArns(settings)
    requires Mine(site.env, st).phase == Generating && HasNextKey(Mine(site.env, st).work)
    ensures var (end, r) := GenerateRun(site, st); var work := Mine(site.env, st).work;
            && r.Ok? && Advances(site.env, st, end, settings.prefix)
            && RestoreFromPackage(site.env.w, true, NextArn(work), settings.context, r.value, PublicKey(site.env.w, work)).Ok?
            && AsksKms(r.value)
  {
    hide Turn;
    hide Inv;
    hide Act;
    hide ManifestKey;
    hide BuildPackage;
    hide RestoreFromPackage;
    hide AsksKms;
    hide Watches;
    hide Recovering;
    hide NoRivalManifest;
    hide Lawful;
    var e, work := site.env, Mine(site.env, st).work;
    var arn := NextArn(work);
    assert arn == settings.kmsKeys[|work.references|].arn;
    var reply, nonce := e.climate.dataKey(st.ops, arn), e.climate.nonce(st.ops);
    TurnMine(e, st);
    var st1 := Turn(e, st);
    WatchAdvances(e, st, st1, settings.prefix);
    var a := Generate(e.me, reply.plain, reply.blob, reply.keyId, nonce);
    GenerateStep(e, st1, reply, nonce);
    ActAdvances(e, st1, a, settings.prefix);
    BuiltPackageRestores(e.w, arn, settings.context, reply.plain, reply.blob, nonce, work.seed);
    RestoredAsksKms(e.w, arn, settings.context, BuildPackage(e.w, reply.plain, reply.blob, nonce, work.seed), PublicKey(e.w, work));
  }

  lemma RestoredAsksKms(w: World, arn: string, context: Context, p: RecoveryPackage, publicKey: Bytes32)
    requires RestoreFromPackage(w, true, arn, context, p, publicKey).Ok?
    ensures AsksKms(p)
  {
  }

  lemma WorkingTrial(site: Site, settings: Settings, st: Session, p: RecoveryPackage)
    requires AtWork(site, settings, st) && Mine(site.env, st).phase == Trying(p) && HasNextKey(Mine(site.env, st).work)
    requires var work := Mine(site.env, st).work;
             RestoreFromPackage(site.env.w, true, NextArn(work), settings.context, p, PublicKey(site.env.w, work)).Ok?
    ensures var (end, r) := TrialRun(site, st, p);
            r.Ok? && Advances(site.env, st, end, settings.prefix)
  {
    hide Turn;
    hide Inv;
    hide Act;
    hide ManifestKey;
    hide RestoreFromPackage;
    hide AfterTry;
    hide Watches;
    hide Recovering;
    hide NoRivalManifest;
    hide Lawful;
    hide HonestKms;
    var e, work := site.env, Mine(site.env, st).work;
    RestoredAsksKms(e.w, NextArn(work), settings.context, p, PublicKey(e.w, work));
    TurnMine(e, st);
    var st1 := Turn(e, st);
    WatchAdvances(e, st, st1, settings.prefix);
    TryStep(e, st1, p);
    ActAdvances(e, st1, TryRestore(e.me), settings.prefix);
  }

  lemma WorkingPackage(site: Site, settings: Settings, st: Session)
    requires AtWork(site, settings, st) && NamedArns(settings)
    requires Mine(site.env, st).phase == Generating && HasNextKey(Mine(site.env, st).work)
    ensures var (end, r) := PackageRun(site, st);
            Advances(site.env, st, end, settings.prefix) && (NoConflict(site.env, end) ==> r.Ok?)
  {
    hide GenerateRun;
    hide SaveItemRun;
    hide VerifyItemRun;
    hide TrialRun;
    hide Working;
    hide NoConflict;
    hide NamedArns;
    hide NoRivalManifest;
    hide ManifestKey;
    hide Inv;
    hide Progress;
    hide Stored;
    hide KeyOf;
    hide RestoreFromPackage;
    var (st1, generated) := GenerateRun(site, st);
    GenerateMeaning(site, st);
    WorkingGenerate(site, settings, st);
    var p := generated.value;
    var (st2, saved) := SaveItemRun(site, st1, PackageItem(p));
    SaveItemMeaning(site, st1, PackageItem(p));
    WorkingSaveItem(site, settings, st1, PackageItem(p));
    if saved.Ok? {
      var (st3, verified) := VerifyItemRun(site, st2, PackageItem(p));
      VerifyItemMeaning(site, st2, PackageItem(p));
      WorkingVerifyItem(site, settings, st2, PackageItem(p));
      WorkingTrial(site, settings, st3, p);
    }
  }

  lemma {:induction false} WorkingPackages(site: Site, settings: Settings, st: Session)
    requires AtWork(site, settings, st) && NamedArns(settings)
    requires Mine(site.env, st).phase == if HasNextKey(Mine(site.env, st).work) then Generating else Ready(PublicItem)
    ensures var (end, r) := PackagesRun(site, st);
            Advances(site.env, st, end, settings.prefix) && (NoConflict(site.env, end) ==> r.Ok?)
    decreases |Mine(site.env, st).work.settings.kmsKeys| - |Mine(site.env, st).work.references|
  {
    hide PackageRun;
    hide Working;
    hide NoConflict;
    hide NamedArns;
    hide NoRivalManifest;
    hide ManifestKey;
    hide Inv;
    hide Progress;
    if HasNextKey(Mine(site.env, st).work) {
      PackageMeaning(site, st);
      WorkingPackage(site, settings, st);
      var (st1, r) := PackageRun(site, st);
      if r.Ok? {
        WorkingPackages(site, settings, st1);
      }
    }
  }

  /** This process's own manifest is what the store holds under the manifest name. */
  ghost predicate OwnManifestStored(e: Env, st: Session) {
    Running(e, st) && Stored(e.w, st.sys.store, Own(Mine(e, st).work, ManifestItem))
  }

  lemma WorkingPublish(site: Site, settings: Settings, st: Session)
    requires AtWork(site, settings, st) && Mine(site.env, st).phase == Ready(PublicItem)
    ensures var (end, r) := PublishRun(site, st); var e := site.env;
            && st.sys.inFlight <= end.sys.inFlight
            && (NoConflict(e, end) ==>
                  && (r.Ok? <==> OwnManifestStored(e, end))
                  && (NoRivalManifest(e, settings.prefix) && ManifestKey(settings.prefix) !in st.sys.store ==> r.Ok?))
  {
    hide SaveItemRun;
    hide VerifyItemRun;
    hide Working;
    hide NoConflict;
    hide NoRivalManifest;
    hide ManifestKey;
    hide Inv;
    hide Progress;
    hide Stored;
    hide KeyOf;
    PublishMeaning(site, st);
    var (st1, saved) := SaveItemRun(site, st, PublicItem);
    SaveItemMeaning(site, st, PublicItem);
    WorkingSaveItem(site, settings, st, PublicItem);
    if saved.Ok? {
      var (st2, verified) := VerifyItemRun(site, st1, PublicItem);
      VerifyItemMeaning(site, st1, PublicItem);
      WorkingVerifyItem(site, settings, st1, PublicItem);
      WorkingSaveItem(site, settings, st2, ManifestItem);
      var end := SaveItemRun(site, st2, ManifestItem).0;
      assert PublishRun(site, st).0 == end;
      assert Running(site.env, end) && Mine(site.env, end).work == Mine(site.env, st2).work;
    }
  }

  lemma WorkingCheck(site: Site, settings: Settings, seed: Bytes32, st: Session)
    requires Working(site, settings) && Inv(site.env.w, st.sys)
    requires !Running(site.env, st) && ValidateConfiguration(settings).Ok?
    ensures var (end, r) := CheckRun(site, settings, seed, st);
            && Advances(site.env, st, end, settings.prefix)
            && (NoRivalManifest(site.env, settings.prefix) && ManifestKey(settings.prefix) !in st.sys.store ==> r.Ok?)
  {
    assert Below(settings.prefix, ManifestKey(settings.prefix));
    hide ClientLoad;
    hide Inv;
    hide Act;
    hide ManifestKey;
    hide NoRivalManifest;
    hide ValidateConfiguration;
    hide Working;
    hide Below;
    var e, key := site.env, ManifestKey(settings.prefix);
    var st0 := Act(e, st, Spawn(e.me, settings, seed));
    WorkingIsLawful(site, settings);
    ActAdvances(e, st, Spawn(e.me, settings, seed), settings.prefix);
    WorkingLoad(site, settings, st0, key);
    var st1 := ClientLoad(site, st0, settings.bucket, key).0;
    ActAdvances(e, st1, CheckAbsent(e.me), settings.prefix);
  }

  lemma WorkingIsLawful(site: Site, settings: Settings)
    requires Working(site, settings)
    ensures Lawful(site.env.w) && TrustedClimate(site.env.climate) && Responsive(site.env.climate)
  {
  }

  lemma WorkingWriteAll(site: Site, settings: Settings, st: Session)
    requires AtWork(site, settings, st) && NamedArns(settings)
    requires Mine(site.env, st).phase == if HasNextKey(Mine(site.env, st).work) then Generating else Ready(PublicItem)
    ensures var (end, r) := WriteAllRun(site, st); var e := site.env;
            && (NoConflict(e, end) ==>
                  && (r.Ok? <==> OwnManifestStored(e, end))
                  && (NoRivalManifest(e, settings.prefix) && ManifestKey(settings.prefix) !in st.sys.store ==> r.Ok?))
  {
    hide PackagesRun;
    hide PublishRun;
    hide Working;
    hide NoConflict;
    hide NamedArns;
    hide NoRivalManifest;
    hide ManifestKey;
    hide Inv;
    hide Progress;
    hide Stored;
    PackagesMeaning(site, st);
    WorkingPackages(site, settings, st);
    var (st1, packaged) := PackagesRun(site, st);
    WriteAllMeaning(site, st);
    if packaged.Ok? {
      WorkingPublish(site, settings, st1);
      PublishMeaning(site, st1);
    }
  }

  /** A written manifest has two references, so a process that has made none never finds its own. */
  lemma StoredManifestHasReferences(w: World, s: System, work: Work)
    requires Lawful(w) && Inv(w, s) && Stored(w, s.store, Own(work, ManifestItem))
    ensures |work.references| == 2
  {
    hide Inv;
    hide ItemGood;
    hide PublicBody;
    var prefix := work.settings.prefix;
    ManifestKeyOf(w, work);
    ManifestOrigin(w, s, prefix);
    var committer := Committer(s, prefix).value;
    StoredManifestParses(w, s.store, committer);
    ManifestReferences(w, s.store, committer);
    var m := ManifestOf(w, prefix, PublicKey(w, work), work.references);
    assert w.manifests.parse(w.manifests.render(m)) == Some(m);
  }

  lemma ManifestReferences(w: World, store: Store, work: Work)
    requires ItemGood(w, store, work, ManifestItem)
    ensures |work.references| == 2
  {
    hide Stored;
    TwoKeys(w, store, work);
  }

  lemma StopKeepsManifest(e: Env, st: Session)
    requires Lawful(e.w) && Inv(e.w, st.sys) && Running(e, st) && Mine(e, st).phase != Committed
    ensures var end := Act(e, st, Stop(e.me));
            && Inv(e.w, end.sys) && (NoConflict(e, end) <==> NoConflict(e, st))
            && (OwnManifestStored(e, end) <==> OwnManifestStored(e, st))
  {
    hide Act;
    hide Inv;
    hide Lawful;
    hide KeyOf;
    hide BodyOf;
    hide NoConflict;
    StopStep(e, st);
    ActAdvances(e, st, Stop(e.me), "");
    SameHashes(e, st, Act(e, st, Stop(e.me)));
  }

  /**
   * At a working site, whatever others do meanwhile, competing initialisers included, initialising with accepted
   * settings succeeds if and only if both ARNs have a storage name and the manifest in the store is in the end its own.
   */
  lemma ContestedInitialisationExact(site: Site, settings: Settings, seed: Bytes32, st: Session)
    requires Working(site, settings) && Inv(site.env.w, st.sys)
    requires !Running(site.env, st) && ValidateConfiguration(settings).Ok?
    requires NoConflict(site.env, InitialiseRun(site, settings, seed, st).0)
    ensures var (end, r) := InitialiseRun(site, settings, seed, st);
            r.Ok? <==> NamedArns(settings) && OwnManifestStored(site.env, end)
  {
    hide CheckRun;
    hide WriteAllRun;
    hide Working;
    hide Inv;
    hide Lawful;
    hide NoConflict;
    hide NoRivalManifest;
    hide NamedArns;
    hide Progress;
    hide Act;
    hide ManifestKey;
    hide ValidateConfiguration;
    hide OwnManifestStored;
    var e := site.env;
    WorkingIsLawful(site, settings);
    ConfiguredKeys(settings);
    CheckMeaning(site, settings, seed, st);
    WorkingCheck(site, settings, seed, st);
    var (st1, checked) := CheckRun(site, settings, seed, st);
    if checked.Err? {
      StopKeepsManifest(e, st1);
      NoReferencesNoManifest(e, st1);
    } else {
      if NamedArns(settings) {
        WorkingWriteAll(site, settings, st1);
      } else if InitialiseRun(site, settings, seed, st).1.Ok? {
        UnnamedArnNeverInitialises(site, settings, seed, st);
      }
      var (st2, written) := WriteAllRun(site, st1);
      WriteAllMeaning(site, st1);
      if written.Err? {
        ProgressKeepsInv(e, st1, st2, Writable(site));
        StopKeepsManifest(e, st2);
      }
    }
  }

  lemma NoReferencesNoManifest(e: Env, st: Session)
    requires Lawful(e.w) && Inv(e.w, st.sys) && Running(e, st) && Mine(e, st).work.references == []
    ensures !OwnManifestStored(e, st)
  {
    hide Inv;
    hide Lawful;
    hide Stored;
    if OwnManifestStored(e, st) {
      StoredManifestHasReferences(e.w, st.sys, Mine(e, st).work);
    }
  }

  /**
   * With accepted settings, a working site and no manifest present or landing from elsewhere, initialising succeeds if
   * and only if both ARNs have a storage name, which start-up does not check.
   */
  lemma WorkingInitialisationExact(site: Site, settings: Settings, seed: Bytes32, st: Session)
    requires Working(site, settings) && NoRivalManifest(site.env, settings.prefix)
    requires Inv(site.env.w, st.sys) && ManifestKey(settings.prefix) !in st.sys.store
    requires !Running(site.env, st) && ValidateConfiguration(settings).Ok?
    requires NoConflict(site.env, InitialiseRun(site, settings, seed, st).0)
    ensures InitialiseRun(site, settings, seed, st).1.Ok? <==> NamedArns(settings)
  {
    hide InitialiseRun;
    hide Inv;
    hide NoConflict;
    hide NoRivalManifest;
    hide ManifestKey;
    hide ValidateConfiguration;
    hide NamedArns;
    hide Working;
    if NamedArns(settings) {
      UnrivalledInitialisationSucceeds(site, settings, seed, st);
    }
    if InitialiseRun(site, settings, seed, st).1.Ok? {
      UnnamedArnNeverInitialises(site, settings, seed, st);
    }
  }

  /**
   * Safe re-run: from every state of a trusted run with no manifest under the prefix, initialising succeeds at a
   * working site, whatever leaves and half-finished processes earlier failures have left behind, whatever their writes
   * in flight and other initialisers do during the re-run, and with connections to S3 lost and recovered, provided
   * that nobody else's manifest for the prefix lands, no two values of the run collide under SHA-256, and no outside
   * party occupies the name of a leaf.
   */
  lemma FaultFreeInitialisationSucceeds(site: Site, settings: Settings, seed: Bytes32, actions: seq<Action>, st: Session)
    requires Trusted(actions) && st.sys == RunAll(site.env.w, EMPTY, actions)
    requires Working(site, settings) && NamedArns(settings) && NoRivalManifest(site.env, settings.prefix)
    requires ManifestKey(settings.prefix) !in st.sys.store
    requires !Running(site.env, st) && ValidateConfiguration(settings).Ok?
    requires NoConflict(site.env, InitialiseRun(site, settings, seed, st).0)
    ensures InitialiseRun(site, settings, seed, st).1 ==
            Ok(KeyPair(site.env.w.publicKeyOf(seed), Sha256Hex(site.env.w, site.env.w.publicKeyOf(seed)), ""))
  {
    hide InitialiseRun;
    hide RunAll;
    hide Inv;
    hide Lawful;
    hide Working;
    hide NamedArns;
    hide NoRivalManifest;
    hide NoConflict;
    hide ManifestKey;
    hide ValidateConfiguration;
    WorkingIsLawful(site, settings);
    EmptyIsGood(site.env.w);
    RunKeepsInv(site.env.w, EMPTY, actions);
    UnrivalledInitialisationSucceeds(site, settings, seed, st);
  }

  lemma UnrivalledInitialisationSucceeds(site: Site, settings: Settings, seed: Bytes32, st: Session)
    requires Working(site, settings) && NamedArns(settings) && NoRivalManifest(site.env, settings.prefix)
    requires Inv(site.env.w, st.sys) && ManifestKey(settings.prefix) !in st.sys.store
    requires !Running(site.env, st) && ValidateConfiguration(settings).Ok?
    requires NoConflict(site.env, InitialiseRun(site, settings, seed, st).0)
    ensures InitialiseRun(site, settings, seed, st).1 ==
            Ok(KeyPair(site.env.w.publicKeyOf(seed), Sha256Hex(site.env.w, site.env.w.publicKeyOf(seed)), ""))
  {
    hide CheckRun;
    hide WriteAllRun;
    hide Working;
    hide Inv;
    hide Lawful;
    hide NoConflict;
    hide NoRivalManifest;
    hide NamedArns;
    hide Progress;
    hide Act;
    hide ManifestKey;
    hide ValidateConfiguration;
    var e := site.env;
    WorkingIsLawful(site, settings);
    ConfiguredKeys(settings);
    CheckMeaning(site, settings, seed, st);
    WorkingCheck(site, settings, seed, st);
    var st1 := CheckRun(site, settings, seed, st).0;
    WorkingWriteAll(site, settings, st1);
    WriteAllMeaning(site, st1);
    var (st2, written) := WriteAllRun(site, st1);
    if written.Err? {
      ProgressKeepsInv(e, st1, st2, Writable(site));
      StopKeepsManifest(e, st2);
    }
  }

  // ----- committed states exist -----

  /** A deployment on its own: nobody else acts and every operation is answered. */
  function QuietSite(w: World, settings: Settings, dataKey: (nat, string) -> DataKeyReply, nonce: nat -> Bytes12): Site {
    Site(Env(w, Climate(_ => [], (_, _) => Answered, dataKey, nonce), 0),
         Broker.Config(settings.(startupMode := InitKey), None, {}), None)
  }

  const START := Session(EMPTY, [], 0, 0, 0, 0)

  /**
   * The protocol can commit: for every seed and all settings with storage names, when KMS decrypts what it
   * generates, some trusted run from the empty system ends with this key committed. The states that the safety
   * theorems speak of are reachable.
   */
  lemma CommitIsReachable(w: World, settings: Settings, seed: Bytes32, dataKey: (nat, string) -> DataKeyReply,
                          nonce: nat -> Bytes12)
    requires Lawful(w) && ValidateConfiguration(settings).Ok? && NamedArns(settings)
    requires HonestKms(QuietSite(w, settings, dataKey, nonce).env, settings)
    requires var site := QuietSite(w, settings, dataKey, nonce);
             NoConflict(site.env, InitialiseRun(site, settings, seed, START).0)
    ensures exists actions, pid :: Trusted(actions) && CommittedIn(w, RunAll(w, EMPTY, actions), pid, settings, seed)
  {
    hide InitialiseRun;
    hide ValidateConfiguration;
    hide NoConflict;
    hide HonestKms;
    hide NamedArns;
    hide Lawful;
    hide ManifestKey;
    hide RunAll;
    hide Inv;
    var site := QuietSite(w, settings, dataKey, nonce);
    EmptyIsGood(w);
    QuietIsWorking(w, settings, dataKey, nonce);
    UnrivalledInitialisationSucceeds(site, settings, seed, START);
    InitialiseMeaning(site, settings, seed, START);
    var end := InitialiseRun(site, settings, seed, START).0;
    assert end.trace[0..] == end.trace;
    forall i | 0 <= i < |end.trace| ensures Harmless(end.trace[i]) {
      assert OwnStep(site.env, 0, end.ops, end.trace[i], true);
    }
    assert CommittedIn(w, RunAll(w, EMPTY, end.trace), 0, settings, seed);
  }

  lemma QuietIsWorking(w: World, settings: Settings, dataKey: (nat, string) -> DataKeyReply, nonce: nat -> Bytes12)
    requires Lawful(w) && HonestKms(QuietSite(w, settings, dataKey, nonce).env, settings)
    ensures var site := QuietSite(w, settings, dataKey, nonce);
            Working(site, settings) && NoRivalManifest(site.env, settings.prefix)
  {
    hide HonestKms;
    hide Lawful;
    var climate := QuietSite(w, settings, dataKey, nonce).env.climate;
    forall n: nat, op ensures AnsweredSoon(climate, op, n) {
      assert FirstAnswer(climate, op, n, n);
    }
  }

  ghost predicate CommittedIn(w: World, s: System, pid: nat, settings: Settings, seed: Bytes32) {
    && pid in s.processes && s.processes[pid].phase.Committed?
    && s.processes[pid].work.settings == settings && s.processes[pid].work.seed == seed
  }

  lemma EmptyIsGood(w: World)
    ensures Inv(w, EMPTY)
  {
  }

  // ----- what configuration checking does not catch -----

  lemma PackageNamesArn(site: Site, st: Session)
    requires Running(site.env, st) && Mine(site.env, st).phase == Generating && HasNextKey(Mine(site.env, st).work)
    requires PackageRun(site, st).1.Ok?
    ensures KmsArn.DisplayId(NextArn(Mine(site.env, st).work)).Ok?
  {
    hide Turn;
    hide Act;
    hide BuildPackage;
    hide Progress;
    hide SaveItemRun;
    hide VerifyItemRun;
    hide TrialRun;
    hide Stored;
    GenerateMeaning(site, st);
  }

  lemma {:induction false} PackagesNameArns(site: Site, st: Session, i: nat)
    requires Running(site.env, st)
    requires Mine(site.env, st).phase == if HasNextKey(Mine(site.env, st).work) then Generating else Ready(PublicItem)
    requires PackagesRun(site, st).1.Ok?
    requires |Mine(site.env, st).work.references| <= i < |Mine(site.env, st).work.settings.kmsKeys|
    ensures KmsArn.DisplayId(Mine(site.env, st).work.settings.kmsKeys[i].arn).Ok?
    decreases |Mine(site.env, st).work.settings.kmsKeys| - |Mine(site.env, st).work.references|
  {
    hide PackageRun;
    hide Progress;
    PackageMeaning(site, st);
    PackageNamesArn(site, st);
    if i > |Mine(site.env, st).work.references| {
      PackagesNameArns(site, PackageRun(site, st).0, i);
    }
  }

  /** However the surroundings behave, initialising never succeeds with an ARN that has no storage name. */
  lemma UnnamedArnNeverInitialises(site: Site, settings: Settings, seed: Bytes32, st: Session)
    requires !Running(site.env, st) && ValidateConfiguration(settings).Ok?
    requires InitialiseRun(site, settings, seed, st).1.Ok?
    ensures NamedArns(settings)
  {
    hide CheckRun;
    hide PackagesRun;
    hide PublishRun;
    hide Progress;
    hide ManifestKey;
    hide ValidateConfiguration;
    CheckMeaning(site, settings, seed, st);
    ConfiguredKeys(settings);
    var st1 := CheckRun(site, settings, seed, st).0;
    PackagesMeaning(site, st1);
    forall i | 0 <= i < |settings.kmsKeys| ensures KmsArn.DisplayId(settings.kmsKeys[i].arn).Ok? {
      PackagesNameArns(site, st1, i);
    }
  }
}
