/**
 * Concurrent initialisation as a transition system. Any number of initialisers, for any prefixes of one bucket,
 * work against one store. A write is first admitted (it is then in flight) and may land at any later moment, once,
 * or never, whatever has become of the process that issued it. A process may stop before any step: that stands
 * both for a crash and for an error return. An outside party may add objects only through `Outside`.
 */
module Commit {
  import opened Basics
  import opened KeyMaterial
  import Hex
  import KmsArn
  import ObjectNames

  /** What one initialiser has computed so far; the public key is a function of the generated seed. */
  datatype Work = Work(settings: Settings, seed: Bytes32, references: seq<RecoveryReference>)

  /** The objects an initialiser writes: the package for the next KMS key, the public document, the manifest. */
  datatype Item = PackageItem(package: RecoveryPackage) | PublicItem | ManifestItem

  /** A conditional write, remembered with its origin. */
  datatype Write = Own(work: Work, item: Item) | Foreign(key: string, body: Bytes)

  datatype Phase =
    | Checking
    | Generating
    | Ready(item: Item)
    | Saving(item: Item)
    | Verifying(item: Item)
    | Trying(package: RecoveryPackage)
    | Committed
    | Stopped

  datatype Process = Process(work: Work, phase: Phase)

  datatype System = System(
    store: Store, origin: map<string, Write>, inFlight: set<Write>, processes: map<nat, Process>)

  datatype Action =
    | Spawn(pid: nat, settings: Settings, seed: Bytes32)
    | CheckAbsent(pid: nat)
    | Generate(pid: nat, plain: Bytes, blob: Bytes, keyId: string, nonce: Bytes12)
    | Admit(pid: nat)
    | Land(write: Write)
    | Acknowledge(pid: nat)
    | Verify(pid: nat)
    | TryRestore(pid: nat)
    | Stop(pid: nat)
    | Outside(key: string, body: Bytes)

  const EMPTY := System(map[], map[], {}, map[])

  // ----- what is written where -----

  function PublicKey(w: World, work: Work): Bytes32 {
    w.publicKeyOf(work.seed)
  }

  predicate HasNextKey(work: Work) {
    |work.references| < |work.settings.kmsKeys|
  }

  function NextArn(work: Work): string
    requires HasNextKey(work)
  {
    work.settings.kmsKeys[|work.references|].arn
  }

  function PackageHash(w: World, package: RecoveryPackage): string {
    Sha256Hex(w, w.packages.render(package))
  }

  function ItemName(w: World, work: Work, item: Item): Result<ObjectNames.Name, Error> {
    match item
    case ManifestItem => Ok(ObjectNames.Manifest(work.settings.prefix))
    case PublicItem => Ok(ObjectNames.Public(work.settings.prefix, Sha256Hex(w, PublicKey(w, work))))
    case PackageItem(package) =>
      if !HasNextKey(work) then Err(WrongKeyCount)
      else match ObjectNames.PackageName(work.settings.prefix, ArnDigest(w, NextArn(work)), NextArn(work),
                                         PackageHash(w, package))
        case Err(_) => Err(BadArn)
        case Ok(name) => Ok(name)
  }

  function ItemBody(w: World, work: Work, item: Item): Bytes {
    match item
    case PackageItem(package) => w.packages.render(package)
    case PublicItem => PublicBody(w, PublicKey(w, work))
    case ManifestItem =>
      w.manifests.render(ManifestOf(w, work.settings.prefix, PublicKey(w, work), work.references))
  }

  function KeyOf(w: World, write: Write): string {
    match write
    case Foreign(key, _) => key
    case Own(work, item) =>
      var name := ItemName(w, work, item);
      if name.Ok? then ObjectNames.Render(name.value) else ""
  }

  function BodyOf(w: World, write: Write): Bytes {
    match write
    case Foreign(_, body) => body
    case Own(work, item) => ItemBody(w, work, item)
  }

  predicate Stored(w: World, store: Store, write: Write) {
    Lookup(store, KeyOf(w, write)) == Some(BodyOf(w, write))
  }

  /**
   * The names that an initialiser writes, spelled out: the storage id carries the digest of the item's own ARN, the
   * file name the digest of the package itself.
   */
  lemma ItemKeysSpelledOut(w: World, work: Work, package: RecoveryPackage)
    ensures KeyOf(w, Own(work, ManifestItem)) == work.settings.prefix + "/" + "key_manifest.json"
    ensures KeyOf(w, Own(work, PublicItem))
            == work.settings.prefix + "/"
               + ("public_key_sha256-" + Hex.Encode(w.sha256(w.publicKeyOf(work.seed))) + ".json")
    ensures HasNextKey(work) && KmsArn.DisplayId(NextArn(work)).Ok? ==>
              var arn := work.settings.kmsKeys[|work.references|].arn;
              var display := KmsArn.DisplayId(arn).value;
              KeyOf(w, Own(work, PackageItem(package)))
              == work.settings.prefix + "/"
                 + ("kms-key-" + (display + "-" + Hex.Encode(w.sha256(w.utf8(arn)))[..12]) + "/"
                    + ("encrypted_private_key_by_kms-key-" + display + "_sha256-"
                       + Hex.Encode(w.sha256(w.packages.render(package))) + ".json"))
  {
    hide KmsArn.DisplayId;
    hide Hex.Encode;
  }

  // ----- steps -----

  predicate Enabled(w: World, s: System, a: Action) {
    match a
    case Spawn(pid, settings, _) => pid !in s.processes && ValidateConfiguration(settings).Ok?
    case CheckAbsent(pid) =>
      && pid in s.processes && s.processes[pid].phase.Checking?
      && ManifestKey(s.processes[pid].work.settings.prefix) !in s.store
    case Generate(pid, plain, _, keyId, _) =>
      && pid in s.processes && s.processes[pid].phase.Generating? && HasNextKey(s.processes[pid].work)
      && keyId == NextArn(s.processes[pid].work) && SupportedKeyLength(plain)
      && KmsArn.DisplayId(keyId).Ok?
    case Admit(pid) => pid in s.processes && s.processes[pid].phase.Ready?
    case Land(write) => write in s.inFlight
    case Acknowledge(pid) =>
      && pid in s.processes && s.processes[pid].phase.Saving?
      && Stored(w, s.store, Own(s.processes[pid].work, s.processes[pid].phase.item))
    case Verify(pid) =>
      && pid in s.processes && s.processes[pid].phase.Verifying? && !s.processes[pid].phase.item.ManifestItem?
      && var write := Own(s.processes[pid].work, s.processes[pid].phase.item);
      && KeyOf(w, write) in s.store
      && VerifySha256(w, s.store[KeyOf(w, write)], Sha256Hex(w, BodyOf(w, write))).Ok?
    case TryRestore(pid) =>
      && pid in s.processes && s.processes[pid].phase.Trying? && HasNextKey(s.processes[pid].work)
      && var work := s.processes[pid].work;
      && RestoreFromPackage(w, true, NextArn(work), work.settings.context, s.processes[pid].phase.package,
                            PublicKey(w, work)).Ok?
    case Stop(pid) => pid in s.processes && !s.processes[pid].phase.Committed?
    case Outside(_, _) => true
  }

  function AfterAcknowledge(item: Item): Phase {
    if item.ManifestItem? then Committed else Verifying(item)
  }

  function AfterVerify(item: Item): Phase {
    match item
    case PackageItem(package) => Trying(package)
    case _ => Ready(ManifestItem)
  }

  function AddReference(w: World, work: Work, package: RecoveryPackage): Work
    requires HasNextKey(work)
  {
    work.(references := work.references + [
      RecoveryReference(NextArn(work), KeyOf(w, Own(work, PackageItem(package))), PackageHash(w, package))])
  }

  function AfterTry(w: World, p: Process): Process
    requires p.phase.Trying? && HasNextKey(p.work)
  {
    var work := AddReference(w, p.work, p.phase.package);
    Process(work, if HasNextKey(work) then Generating else Ready(PublicItem))
  }

  function SetPhase(s: System, pid: nat, phase: Phase): System
    requires pid in s.processes
  {
    s.(processes := s.processes[pid := s.processes[pid].(phase := phase)])
  }

  function LandIn(w: World, s: System, write: Write): System {
    if KeyOf(w, write) in s.store then s
    else s.(store := s.store[KeyOf(w, write) := BodyOf(w, write)], origin := s.origin[KeyOf(w, write) := write])
  }

  /** A disabled action changes nothing, so every list of actions is a run. */
  function Step(w: World, s: System, a: Action): System {
    if !Enabled(w, s, a) then s
    else match a
      case Spawn(pid, settings, seed) =>
        s.(processes := s.processes[pid := Process(Work(settings, seed, []), Checking)])
      case CheckAbsent(pid) => SetPhase(s, pid, Generating)
      case Generate(pid, plain, blob, _, nonce) =>
        SetPhase(s, pid, Ready(PackageItem(BuildPackage(w, plain, blob, nonce, s.processes[pid].work.seed))))
      case Admit(pid) =>
        var p := s.processes[pid];
        SetPhase(s, pid, Saving(p.phase.item)).(inFlight := s.inFlight + {Own(p.work, p.phase.item)})
      case Land(write) => LandIn(w, s, write)
      case Acknowledge(pid) => SetPhase(s, pid, AfterAcknowledge(s.processes[pid].phase.item))
      case Verify(pid) => SetPhase(s, pid, AfterVerify(s.processes[pid].phase.item))
      case TryRestore(pid) => s.(processes := s.processes[pid := AfterTry(w, s.processes[pid])])
      case Stop(pid) => SetPhase(s, pid, Stopped)
      case Outside(key, body) => s.(inFlight := s.inFlight + {Foreign(key, body)})
  }

  function RunAll(w: World, s: System, actions: seq<Action>): System
    decreases |actions|
  {
    if actions == [] then s else RunAll(w, Step(w, s, actions[0]), actions[1..])
  }

  lemma {:induction false} RunAllAppend(w: World, s: System, first: seq<Action>, second: seq<Action>)
    ensures RunAll(w, s, first + second) == RunAll(w, RunAll(w, s, first), second)
    decreases |first|
  {
    if first == [] {
      assert first + second == second;
    } else {
      assert (first + second)[1..] == first[1..] + second;
      RunAllAppend(w, Step(w, s, first[0]), first[1..], second);
    }
  }

  ghost predicate ManifestName(key: string) {
    exists prefix :: key == ManifestKey(prefix)
  }

  /** Outside parties may add any object that is not named like a manifest. */
  ghost predicate Harmless(a: Action) {
    a.Outside? ==> !ManifestName(a.key)
  }

  /** Only initialisers write manifests. */
  ghost predicate Trusted(actions: seq<Action>) {
    forall i :: 0 <= i < |actions| ==> Harmless(actions[i])
  }

  // ----- the invariant -----

  ghost predicate ReferenceGood(w: World, store: Store, work: Work, j: nat)
    requires j < |work.references| && j < |work.settings.kmsKeys|
  {
    var r := work.references[j];
    && r.kmsKeyArn == work.settings.kmsKeys[j].arn
    && Below(work.settings.prefix, r.objectKey)
    && Recoverable(w, store, r, work.settings.context, PublicKey(w, work))
  }

  predicate Below(prefix: string, key: string) {
    prefix + "/" <= key
  }

  /** The referenced package is present with the recorded digest and unwraps to a private key of this public key. */
  ghost predicate Recoverable(w: World, store: Store, r: RecoveryReference, context: Context, publicKey: Bytes32) {
    && r.objectKey in store
    && Sha256Hex(w, store[r.objectKey]) == r.sha256
    && w.packages.parse(store[r.objectKey]).Some?
    && RestoreFromPackage(w, true, r.kmsKeyArn, context, w.packages.parse(store[r.objectKey]).value, publicKey).Ok?
  }

  ghost predicate WorkGood(w: World, store: Store, work: Work) {
    && ValidateConfiguration(work.settings).Ok?
    && |work.references| <= 2
    && forall j :: 0 <= j < |work.references| ==> ReferenceGood(w, store, work, j)
  }

  /** Everything that must already be in the store when an item is written. */
  ghost predicate ItemGood(w: World, store: Store, work: Work, item: Item) {
    && WorkGood(w, store, work)
    && match item
       case PackageItem(_) => HasNextKey(work) && KmsArn.DisplayId(NextArn(work)).Ok?
       case PublicItem => !HasNextKey(work)
       case ManifestItem => !HasNextKey(work) && Stored(w, store, Own(work, PublicItem))
  }

  ghost predicate WriteGood(w: World, store: Store, write: Write) {
    match write
    case Own(work, item) => ItemGood(w, store, work, item)
    case Foreign(key, _) => !ManifestName(key)
  }

  ghost predicate ProcessGood(w: World, store: Store, p: Process) {
    && WorkGood(w, store, p.work)
    && match p.phase
       case Generating => HasNextKey(p.work)
       case Ready(item) => ItemGood(w, store, p.work, item)
       case Saving(item) => ItemGood(w, store, p.work, item)
       case Verifying(item) => ItemGood(w, store, p.work, item) && Stored(w, store, Own(p.work, item))
       case Trying(package) =>
         && ItemGood(w, store, p.work, PackageItem(package))
         && Stored(w, store, Own(p.work, PackageItem(package)))
       case Committed => ItemGood(w, store, p.work, ManifestItem) && Stored(w, store, Own(p.work, ManifestItem))
       case Checking => p.work.references == []
       case Stopped => true
  }

  ghost predicate Inv(w: World, s: System) {
    && s.origin.Keys == s.store.Keys
    && (forall key :: key in s.store ==> Provenance(w, s, key))
    && (forall write :: write in s.inFlight ==> WriteGood(w, s.store, write))
    && (forall pid :: pid in s.processes ==> ProcessGood(w, s.store, s.processes[pid]))
  }

  ghost predicate Provenance(w: World, s: System, key: string) {
    && key in s.store && key in s.origin && s.origin[key] in s.inFlight
    && KeyOf(w, s.origin[key]) == key && BodyOf(w, s.origin[key]) == s.store[key]
  }

  // ----- the invariant holds in every run -----

  lemma WorkGoodGrows(w: World, earlier: Store, later: Store, work: Work)
    requires Extends(earlier, later) && WorkGood(w, earlier, work)
    ensures WorkGood(w, later, work)
  {
    forall j | 0 <= j < |work.references| ensures ReferenceGood(w, later, work, j) {
      assert ReferenceGood(w, earlier, work, j);
    }
  }

  lemma ItemGoodGrows(w: World, earlier: Store, later: Store, work: Work, item: Item)
    requires Extends(earlier, later) && ItemGood(w, earlier, work, item)
    ensures ItemGood(w, later, work, item)
  {
    WorkGoodGrows(w, earlier, later, work);
  }

  lemma ProcessGoodGrows(w: World, earlier: Store, later: Store, p: Process)
    requires Extends(earlier, later) && ProcessGood(w, earlier, p)
    ensures ProcessGood(w, later, p)
  {
    WorkGoodGrows(w, earlier, later, p.work);
  }

  /** The store only grows, whatever happens, outside writes included. */
  lemma StepExtends(w: World, s: System, a: Action)
    ensures Extends(s.store, Step(w, s, a).store) && s.inFlight <= Step(w, s, a).inFlight
  {
  }

  lemma {:induction false} RunExtends(w: World, s: System, actions: seq<Action>)
    ensures Extends(s.store, RunAll(w, s, actions).store) && s.inFlight <= RunAll(w, s, actions).inFlight
    decreases |actions|
  {
    if actions != [] {
      StepExtends(w, s, actions[0]);
      RunExtends(w, Step(w, s, actions[0]), actions[1..]);
    }
  }

  lemma GrowthKeepsGood(w: World, s: System, later: Store)
    requires Inv(w, s) && Extends(s.store, later)
    ensures forall write :: write in s.inFlight ==> WriteGood(w, later, write)
    ensures forall pid :: pid in s.processes ==> ProcessGood(w, later, s.processes[pid])
  {
    forall write | write in s.inFlight ensures WriteGood(w, later, write) {
      assert WriteGood(w, s.store, write);
      if write.Own? {
        ItemGoodGrows(w, s.store, later, write.work, write.item);
      }
    }
    forall pid | pid in s.processes ensures ProcessGood(w, later, s.processes[pid]) {
      ProcessGoodGrows(w, s.store, later, s.processes[pid]);
    }
  }

  lemma LandKeepsProvenance(w: World, s: System, write: Write, key: string)
    requires Inv(w, s) && write in s.inFlight && key in LandIn(w, s, write).store
    ensures Provenance(w, LandIn(w, s, write), key)
  {
    hide ItemName;
    hide ItemBody;
    if key in s.store { assert Provenance(w, s, key); }
  }

  lemma LandKeepsKeys(w: World, s: System, write: Write)
    requires s.origin.Keys == s.store.Keys
    ensures var t := LandIn(w, s, write);
            && t.origin.Keys == t.store.Keys && Extends(s.store, t.store)
            && t.inFlight == s.inFlight && t.processes == s.processes
  {
  }

  lemma LandKeepsInv(w: World, s: System, write: Write)
    requires Inv(w, s) && write in s.inFlight
    ensures Inv(w, LandIn(w, s, write))
  {
    forall key | key in LandIn(w, s, write).store ensures Provenance(w, LandIn(w, s, write), key) {
      LandKeepsProvenance(w, s, write, key);
    }
    LandKeepsKeys(w, s, write);
    Assemble(w, s, LandIn(w, s, write));
  }

  lemma Assemble(w: World, s: System, t: System)
    requires Inv(w, s) && Extends(s.store, t.store)
    requires t.inFlight == s.inFlight && t.processes == s.processes && t.origin.Keys == t.store.Keys
    requires forall key :: key in t.store ==> Provenance(w, t, key)
    ensures Inv(w, t)
  {
    GrowthKeepsGood(w, s, t.store);
  }

  /** The reference recorded for a tried package. */
  lemma NewReferenceGood(w: World, store: Store, work: Work, package: RecoveryPackage)
    requires Lawful(w) && HasNextKey(work) && KmsArn.DisplayId(NextArn(work)).Ok?
    requires Stored(w, store, Own(work, PackageItem(package)))
    requires RestoreFromPackage(w, true, NextArn(work), work.settings.context, package, PublicKey(w, work)).Ok?
    ensures ReferenceGood(w, store, AddReference(w, work, package), |work.references|)
  {
    var r := RecoveryReference(NextArn(work), KeyOf(w, Own(work, PackageItem(package))), PackageHash(w, package));
    assert AddReference(w, work, package).references[|work.references|] == r;
    PackageKeyBelow(w, work, package);
    assert w.packages.parse(w.packages.render(package)) == Some(package);
  }

  lemma PackageKeyBelow(w: World, work: Work, package: RecoveryPackage)
    requires HasNextKey(work) && KmsArn.DisplayId(NextArn(work)).Ok?
    ensures Below(work.settings.prefix, KeyOf(w, Own(work, PackageItem(package))))
  {
  }

  lemma OldReferenceGood(w: World, store: Store, work: Work, package: RecoveryPackage, j: nat)
    requires HasNextKey(work) && j < |work.references| && ReferenceGood(w, store, work, j)
    ensures ReferenceGood(w, store, AddReference(w, work, package), j)
  {
    assert AddReference(w, work, package).references[j] == work.references[j];
  }

  /** A tried package becomes a good reference. */
  lemma TriedWorkGood(w: World, store: Store, work: Work, package: RecoveryPackage)
    requires Lawful(w) && WorkGood(w, store, work) && HasNextKey(work) && KmsArn.DisplayId(NextArn(work)).Ok?
    requires Stored(w, store, Own(work, PackageItem(package)))
    requires RestoreFromPackage(w, true, NextArn(work), work.settings.context, package, PublicKey(w, work)).Ok?
    ensures WorkGood(w, store, AddReference(w, work, package))
  {
    NewReferenceGood(w, store, work, package);
    forall j | 0 <= j <= |work.references| ensures ReferenceGood(w, store, AddReference(w, work, package), j) {
      if j < |work.references| {
        OldReferenceGood(w, store, work, package, j);
      }
    }
  }

  lemma TryGood(w: World, store: Store, p: Process)
    requires Lawful(w) && ProcessGood(w, store, p) && p.phase.Trying?
    requires RestoreFromPackage(w, true, NextArn(p.work), p.work.settings.context, p.phase.package,
                                PublicKey(w, p.work)).Ok?
    ensures ProcessGood(w, store, AfterTry(w, p))
  {
    TriedWorkGood(w, store, p.work, p.phase.package);
    NextPhaseGood(w, store, AddReference(w, p.work, p.phase.package));
  }

  lemma NextPhaseGood(w: World, store: Store, work: Work)
    requires WorkGood(w, store, work)
    ensures ProcessGood(w, store, Process(work, if HasNextKey(work) then Generating else Ready(PublicItem)))
  {
  }

  lemma TwoKeys(w: World, store: Store, work: Work)
    requires WorkGood(w, store, work)
    ensures |work.settings.kmsKeys| == 2 && |work.references| <= 2
  {
  }

  /** The process after a step of its own is good. */
  ghost predicate LeavesGood(w: World, s: System, a: Action)
    requires !a.Land? && !a.Outside?
  {
    a.pid in Step(w, s, a).processes && ProcessGood(w, s.store, Step(w, s, a).processes[a.pid])
  }

  lemma TryStepGood(w: World, s: System, pid: nat)
    requires Lawful(w) && pid in s.processes && ProcessGood(w, s.store, s.processes[pid])
    requires Enabled(w, s, TryRestore(pid))
    ensures LeavesGood(w, s, TryRestore(pid))
  {
    hide ProcessGood;
    hide AfterTry;
    hide RestoreFromPackage;
    hide Lawful;
    TryGood(w, s.store, s.processes[pid]);
  }

  lemma PhaseStepGood(w: World, s: System, a: Action)
    requires !a.Land? && !a.Outside? && !a.Spawn? && !a.TryRestore?
    requires a.pid in s.processes && ProcessGood(w, s.store, s.processes[a.pid]) && Enabled(w, s, a)
    ensures LeavesGood(w, s, a)
  {
    hide KeyOf;
    hide BodyOf;
    hide Stored;
    hide WorkGood;
    hide BuildPackage;
    hide RestoreFromPackage;
    hide VerifySha256;
    hide AfterTry;
    hide ManifestKey;
    TwoKeys(w, s.store, s.processes[a.pid].work);
  }

  /** A step of a process leaves that process in a good phase. */
  lemma ProcessStepGood(w: World, s: System, a: Action)
    requires Lawful(w) && !a.Land? && !a.Outside? && !a.Spawn?
    requires a.pid in s.processes && ProcessGood(w, s.store, s.processes[a.pid]) && Enabled(w, s, a)
    ensures LeavesGood(w, s, a)
  {
    hide Lawful;
    hide Enabled;
    hide ProcessGood;
    hide LeavesGood;
    if a.TryRestore? {
      TryStepGood(w, s, a.pid);
    } else {
      PhaseStepGood(w, s, a);
    }
  }

  /** Only an admission puts a write in flight, and it is then good. */
  lemma ProcessStepWrites(w: World, s: System, a: Action, write: Write)
    requires !a.Outside? && write in Step(w, s, a).inFlight && write !in s.inFlight
    requires a.Land? || a.Spawn? || (a.pid in s.processes ==> ProcessGood(w, s.store, s.processes[a.pid]))
    ensures WriteGood(w, s.store, write)
  {
    hide KeyOf;
    hide BodyOf;
    hide WorkGood;
    hide BuildPackage;
    hide RestoreFromPackage;
    hide VerifySha256;
    hide AfterTry;
  }

  lemma ProcessStepShape(w: World, s: System, a: Action)
    requires Enabled(w, s, a) && !a.Land? && !a.Outside?
    ensures var t := Step(w, s, a);
            && t.store == s.store && t.origin == s.origin && s.inFlight <= t.inFlight
            && a.pid in t.processes && t.processes == s.processes[a.pid := t.processes[a.pid]]
  {
    hide KeyOf;
    hide BodyOf;
    hide BuildPackage;
    hide RestoreFromPackage;
    hide VerifySha256;
    hide AfterTry;
  }

  /** Any step of a process or of the network preserves the invariant. */
  lemma StepKeepsInv(w: World, s: System, a: Action)
    requires Lawful(w) && Inv(w, s) && Harmless(a)
    ensures Inv(w, Step(w, s, a))
  {
    if a.Outside? {
      OutsideKeepsInv(w, s, a.key, a.body);
    } else if a.Land? {
      if a.write in s.inFlight {
        LandKeepsInv(w, s, a.write);
      }
    } else if Enabled(w, s, a) {
      ProcessStepShape(w, s, a);
      SpawnedGood(w, s, a);
      hide Step;
      hide Enabled;
      hide ProcessGood;
      hide WriteGood;
      if !a.Spawn? {
        assert ProcessGood(w, s.store, s.processes[a.pid]);
        ProcessStepGood(w, s, a);
      }
      forall write | write in Step(w, s, a).inFlight && write !in s.inFlight ensures WriteGood(w, s.store, write) {
        ProcessStepWrites(w, s, a, write);
      }
      SameStoreKeepsInv(w, s, Step(w, s, a), a.pid);
    }
  }

  lemma OutsideKeepsInv(w: World, s: System, key: string, body: Bytes)
    requires Inv(w, s) && !ManifestName(key)
    ensures Inv(w, Step(w, s, Outside(key, body)))
  {
    hide KeyOf;
    hide BodyOf;
    hide ProcessGood;
    hide ItemGood;
    hide ManifestName;
    var t := Step(w, s, Outside(key, body));
    forall k | k in t.store ensures Provenance(w, t, k) {
      assert Provenance(w, s, k);
    }
  }

  lemma SpawnedGood(w: World, s: System, a: Action)
    requires Enabled(w, s, a) && !a.Land? && !a.Outside?
    ensures a.Spawn? ==> ProcessGood(w, s.store, Step(w, s, a).processes[a.pid])
    ensures !a.Spawn? ==> a.pid in s.processes
  {
  }

  /** Steps of one process leave the store alone and touch only that process. */
  lemma SameStoreKeepsInv(w: World, s: System, t: System, pid: nat)
    requires Inv(w, s)
    requires t.store == s.store && t.origin == s.origin && s.inFlight <= t.inFlight
    requires pid in t.processes && t.processes == s.processes[pid := t.processes[pid]]
    requires ProcessGood(w, s.store, t.processes[pid])
    requires forall write :: write in t.inFlight && write !in s.inFlight ==> WriteGood(w, s.store, write)
    ensures Inv(w, t)
  {
    forall key | key in t.store ensures Provenance(w, t, key) {
      assert Provenance(w, s, key);
    }
  }

  lemma {:induction false} RunKeepsInv(w: World, s: System, actions: seq<Action>)
    requires Lawful(w) && Inv(w, s) && Trusted(actions)
    ensures Inv(w, RunAll(w, s, actions))
    decreases |actions|
  {
    if actions != [] {
      StepKeepsInv(w, s, actions[0]);
      RunKeepsInv(w, Step(w, s, actions[0]), actions[1..]);
    }
  }

  // ----- the commit theorem -----

  lemma ItemNameWellFormed(w: World, store: Store, work: Work, item: Item)
    requires ItemGood(w, store, work, item)
    ensures ItemName(w, work, item).Ok?
    ensures var name := ItemName(w, work, item).value;
            && ObjectNames.WellFormed(name) && name.prefix == work.settings.prefix
            && (name.Manifest? <==> item.ManifestItem?) && (name.Public? <==> item.PublicItem?)
  {
    match item
    case ManifestItem =>
    case PublicItem => ObjectNames.HexHasNoSlash(w.sha256(PublicKey(w, work)));
    case PackageItem(package) =>
      var arn := NextArn(work);
      ObjectNames.PackageNameWellFormed(work.settings.prefix, ArnDigest(w, arn), arn,
                                        w.sha256(w.packages.render(package)));
  }

  /** What the store publishes under a prefix: the public key named by a valid manifest and its public document. */
  function PublishedKey(w: World, store: Store, prefix: string): Option<Bytes32> {
    match PublishedManifest(w, store, prefix)
    case None => None
    case Some(m) =>
      if m.publicKey.objectKey !in store then None
      else
        var body := store[m.publicKey.objectKey];
        if VerifySha256(w, body, m.publicKey.sha256).Err? then None
        else match w.publicKeys.parse(body)
          case None => None
          case Some(document) =>
            var r := ValidatePublicDocument(w, document, m);
            if r.Ok? then Some(r.value) else None
  }

  function PublishedManifest(w: World, store: Store, prefix: string): Option<Manifest> {
    if ManifestKey(prefix) !in store then None
    else match w.manifests.parse(store[ManifestKey(prefix)])
      case None => None
      case Some(m) => if ValidateManifest(m).Ok? then Some(m) else None
  }

  /** The published key set is complete: both packages are present, intact and unwrap to this key. */
  ghost predicate CompleteKeySet(w: World, store: Store, settings: Settings, publicKey: Bytes32) {
    && PublishedKey(w, store, settings.prefix) == Some(publicKey)
    && var m := PublishedManifest(w, store, settings.prefix).value;
    && |m.recoveryObjects| == 2 == |settings.kmsKeys|
    && settings.kmsKeys[0].arn != settings.kmsKeys[1].arn
    && Below(settings.prefix, m.publicKey.objectKey)
    && Below(settings.prefix, m.recoveryObjects[0].objectKey) && Below(settings.prefix, m.recoveryObjects[1].objectKey)
    && m.recoveryObjects[0].kmsKeyArn == settings.kmsKeys[0].arn
    && m.recoveryObjects[1].kmsKeyArn == settings.kmsKeys[1].arn
    && Recoverable(w, store, m.recoveryObjects[0], settings.context, publicKey)
    && Recoverable(w, store, m.recoveryObjects[1], settings.context, publicKey)
  }

  /** The initialiser whose manifest is the one in the store. */
  function Committer(s: System, prefix: string): Option<Work> {
    var key := ManifestKey(prefix);
    if key in s.origin && s.origin[key].Own? then Some(s.origin[key].work) else None
  }

  lemma StoredManifestParses(w: World, store: Store, work: Work)
    requires Lawful(w) && ItemGood(w, store, work, ManifestItem) && Stored(w, store, Own(work, ManifestItem))
    ensures PublishedManifest(w, store, work.settings.prefix)
            == Some(ManifestOf(w, work.settings.prefix, PublicKey(w, work), work.references))
  {
    hide WorkGood;
    hide PublicBody;
    TwoKeys(w, store, work);
    var m := ManifestOf(w, work.settings.prefix, PublicKey(w, work), work.references);
    assert w.manifests.parse(w.manifests.render(m)) == Some(m);
  }

  lemma StoredManifestPublishes(w: World, store: Store, work: Work)
    requires Lawful(w) && ItemGood(w, store, work, ManifestItem) && Stored(w, store, Own(work, ManifestItem))
    ensures PublishedKey(w, store, work.settings.prefix) == Some(PublicKey(w, work))
  {
    StoredManifestParses(w, store, work);
    var publicKey, prefix := PublicKey(w, work), work.settings.prefix;
    assert Lookup(store, PublicObjectKey(w, prefix, publicKey)) == Some(PublicBody(w, publicKey)) by {
      assert Stored(w, store, Own(work, PublicItem));
    }
    var document := PublicDocumentOf(w, publicKey);
    assert w.publicKeys.parse(w.publicKeys.render(document)) == Some(document);
    WrittenPublicDocumentValidates(w, publicKey, prefix, work.references);
  }

  lemma StoredManifestIsComplete(w: World, store: Store, work: Work)
    requires Lawful(w) && ItemGood(w, store, work, ManifestItem) && Stored(w, store, Own(work, ManifestItem))
    ensures CompleteKeySet(w, store, work.settings, PublicKey(w, work))
  {
    StoredManifestParses(w, store, work);
    StoredManifestPublishes(w, store, work);
    assert ReferenceGood(w, store, work, 0) && ReferenceGood(w, store, work, 1);
  }

  lemma ManifestOrigin(w: World, s: System, prefix: string)
    requires Inv(w, s) && ManifestKey(prefix) in s.store
    ensures Committer(s, prefix).Some?
    ensures var work := Committer(s, prefix).value;
            && work.settings.prefix == prefix
            && ItemGood(w, s.store, work, ManifestItem) && Stored(w, s.store, Own(work, ManifestItem))
  {
    var key := ManifestKey(prefix);
    assert Provenance(w, s, key);
    var write := s.origin[key];
    assert WriteGood(w, s.store, write);
    assert ManifestName(key);
    ItemNameWellFormed(w, s.store, write.work, write.item);
    ObjectNames.RenderInjective(ItemName(w, write.work, write.item).value, ObjectNames.Manifest(prefix));
  }

  /**
   * Commit: in every state of every run, a visible manifest means a complete key set, whose settings and key are
   * those of one initialiser.
   */
  lemma VisibleManifestIsComplete(w: World, actions: seq<Action>, prefix: string)
    requires Lawful(w) && Trusted(actions)
    requires ManifestKey(prefix) in RunAll(w, EMPTY, actions).store
    ensures var s := RunAll(w, EMPTY, actions);
            && Committer(s, prefix).Some?
            && var work := Committer(s, prefix).value;
            && work.settings.prefix == prefix && ValidateConfiguration(work.settings).Ok?
            && CompleteKeySet(w, s.store, work.settings, PublicKey(w, work))
  {
    var s := RunAll(w, EMPTY, actions);
    RunKeepsInv(w, EMPTY, actions);
    ManifestOrigin(w, s, prefix);
    StoredManifestIsComplete(w, s.store, Committer(s, prefix).value);
  }

  /** What a store publishes never changes afterwards. */
  lemma PublishedKeyStable(w: World, earlier: Store, later: Store, prefix: string)
    requires Extends(earlier, later) && PublishedKey(w, earlier, prefix).Some?
    ensures PublishedKey(w, later, prefix) == PublishedKey(w, earlier, prefix)
  {
  }

  lemma CommittedPublishes(w: World, s: System, pid: nat)
    requires Lawful(w) && Inv(w, s) && pid in s.processes && s.processes[pid].phase.Committed?
    ensures var work := s.processes[pid].work;
            PublishedKey(w, s.store, work.settings.prefix) == Some(PublicKey(w, work))
  {
    assert ProcessGood(w, s.store, s.processes[pid]);
    StoredManifestPublishes(w, s.store, s.processes[pid].work);
  }

  lemma StepKeepsCommitted(w: World, s: System, a: Action, pid: nat)
    requires pid in s.processes && s.processes[pid].phase.Committed?
    ensures pid in Step(w, s, a).processes && Step(w, s, a).processes[pid] == s.processes[pid]
  {
  }

  lemma {:induction false} RunKeepsCommitted(w: World, s: System, actions: seq<Action>, pid: nat)
    requires pid in s.processes && s.processes[pid].phase.Committed?
    ensures pid in RunAll(w, s, actions).processes && RunAll(w, s, actions).processes[pid] == s.processes[pid]
    decreases |actions|
  {
    if actions != [] {
      StepKeepsCommitted(w, s, actions[0], pid);
      RunKeepsCommitted(w, Step(w, s, actions[0]), actions[1..], pid);
    }
  }

  /**
   * Agreement over whole runs: an initialiser that returned success at some moment, and any other that returned
   * success for the same prefix at any later moment, report the same key, and it is the one the store publishes then.
   */
  lemma Agreement(w: World, first: seq<Action>, second: seq<Action>, a: nat, b: nat)
    requires Lawful(w) && Trusted(first) && Trusted(second)
    requires var s := RunAll(w, EMPTY, first); a in s.processes && s.processes[a].phase.Committed?
    requires var t := RunAll(w, EMPTY, first + second); b in t.processes && t.processes[b].phase.Committed?
    requires RunAll(w, EMPTY, first).processes[a].work.settings.prefix
             == RunAll(w, EMPTY, first + second).processes[b].work.settings.prefix
    ensures var s, t := RunAll(w, EMPTY, first), RunAll(w, EMPTY, first + second);
            && PublicKey(w, s.processes[a].work) == PublicKey(w, t.processes[b].work)
            && PublishedKey(w, t.store, t.processes[b].work.settings.prefix)
               == Some(PublicKey(w, s.processes[a].work))
  {
    var s, t := RunAll(w, EMPTY, first), RunAll(w, EMPTY, first + second);
    RunAllAppend(w, EMPTY, first, second);
    RunKeepsInv(w, EMPTY, first);
    RunKeepsInv(w, s, second);
    RunKeepsCommitted(w, s, second, a);
    CommittedPublishes(w, t, a);
    CommittedPublishes(w, t, b);
  }

  /** Once a manifest is visible, a process that has not passed its check for this prefix never passes it. */
  ghost predicate StillChecking(s: System, pid: nat, prefix: string) {
    pid in s.processes && s.processes[pid].work.settings.prefix == prefix ==>
      s.processes[pid].phase.Checking? || s.processes[pid].phase.Stopped?
  }

  lemma StepKeepsChecking(w: World, s: System, a: Action, pid: nat, prefix: string)
    requires ManifestKey(prefix) in s.store && StillChecking(s, pid, prefix)
    ensures StillChecking(Step(w, s, a), pid, prefix)
  {
    hide KeyOf;
    hide BodyOf;
    hide BuildPackage;
    hide RestoreFromPackage;
    hide VerifySha256;
    hide ManifestKey;
  }

  /**
   * A re-run after a manifest has landed, even one whose writer never learnt so, refuses: a process started later
   * never gets past the check, so it never generates, writes or commits anything for this prefix.
   */
  lemma {:induction false} LateInitialiserRefuses(w: World, s: System, actions: seq<Action>, pid: nat, prefix: string)
    requires ManifestKey(prefix) in s.store && pid !in s.processes
    ensures StillChecking(RunAll(w, s, actions), pid, prefix)
  {
    StaysChecking(w, s, actions, pid, prefix);
  }

  lemma {:induction false} StaysChecking(w: World, s: System, actions: seq<Action>, pid: nat, prefix: string)
    requires ManifestKey(prefix) in s.store && StillChecking(s, pid, prefix)
    ensures StillChecking(RunAll(w, s, actions), pid, prefix)
    decreases |actions|
  {
    hide StillChecking;
    hide Step;
    if actions != [] {
      StepKeepsChecking(w, s, actions[0], pid, prefix);
      StepExtends(w, s, actions[0]);
      StaysChecking(w, Step(w, s, actions[0]), actions[1..], pid, prefix);
    }
  }

  // ----- rivals -----

  lemma RunTwo(w: World, s: System, a: Action, b: Action)
    ensures RunAll(w, s, [a, b]) == Step(w, Step(w, s, a), b)
  {
    hide Step;
    var t, u := Step(w, s, a), Step(w, Step(w, s, a), b);
    assert [a, b][1..] == [b] && [b][1..] == [];
    assert RunAll(w, t, [b]) == RunAll(w, u, []);
  }

  lemma SpawnAndCheck(w: World, s: System, pid: nat, settings: Settings, seed: Bytes32)
    requires pid !in s.processes && ValidateConfiguration(settings).Ok? && ManifestKey(settings.prefix) !in s.store
    ensures RunAll(w, s, [Spawn(pid, settings, seed), CheckAbsent(pid)])
            == s.(processes := s.processes[pid := Process(Work(settings, seed, []), Generating)])
  {
    hide ValidateConfiguration;
    hide ManifestKey;
    hide RunAll;
    RunTwo(w, s, Spawn(pid, settings, seed), CheckAbsent(pid));
  }

  lemma GenerateAndAdmit(w: World, s: System, pid: nat, plain: Bytes, blob: Bytes, keyId: string, nonce: Bytes12)
    requires Enabled(w, s, Generate(pid, plain, blob, keyId, nonce))
    ensures var work := s.processes[pid].work; var item := PackageItem(BuildPackage(w, plain, blob, nonce, work.seed));
            RunAll(w, s, [Generate(pid, plain, blob, keyId, nonce), Admit(pid)])
            == s.(processes := s.processes[pid := Process(work, Saving(item))], inFlight := s.inFlight + {Own(work, item)})
  {
    hide BuildPackage;
    hide RunAll;
    RunTwo(w, s, Generate(pid, plain, blob, keyId, nonce), Admit(pid));
  }

  /** Two processes that passed the check for one prefix, generated different keys, and are writing packages. */
  ghost predicate BothWriting(s: System, settings: Settings, first: Bytes32, second: Bytes32) {
    && 0 in s.processes && 1 in s.processes
    && s.processes[0].phase.Saving? && s.processes[1].phase.Saving?
    && s.processes[0].work == Work(settings, first, []) && s.processes[1].work == Work(settings, second, [])
    && Own(s.processes[0].work, s.processes[0].phase.item) in s.inFlight
    && Own(s.processes[1].work, s.processes[1].phase.item) in s.inFlight
  }

  /** Nothing stops two initialisers for one prefix before the manifest: this state is reachable for any two keys. */
  lemma RivalsCanBothWrite(w: World, settings: Settings, first: Bytes32, second: Bytes32, plain: Bytes, blob: Bytes,
                           nonce: Bytes12)
    requires ValidateConfiguration(settings).Ok? && SupportedKeyLength(plain)
    requires |settings.kmsKeys| > 0 && KmsArn.DisplayId(settings.kmsKeys[0].arn).Ok?
    ensures exists actions :: Trusted(actions) && BothWriting(RunAll(w, EMPTY, actions), settings, first, second)
  {
    hide ValidateConfiguration;
    hide BuildPackage;
    hide ManifestKey;
    hide RunAll;
    hide Step;
    var arn := settings.kmsKeys[0].arn;
    var a, b := [Spawn(0, settings, first), CheckAbsent(0)], [Spawn(1, settings, second), CheckAbsent(1)];
    var c, d := [Generate(0, plain, blob, arn, nonce), Admit(0)], [Generate(1, plain, blob, arn, nonce), Admit(1)];
    SpawnAndCheck(w, EMPTY, 0, settings, first);
    var s1 := RunAll(w, EMPTY, a);
    SpawnAndCheck(w, s1, 1, settings, second);
    var s2 := RunAll(w, s1, b);
    GenerateAndAdmit(w, s2, 0, plain, blob, arn, nonce);
    var s3 := RunAll(w, s2, c);
    GenerateAndAdmit(w, s3, 1, plain, blob, arn, nonce);
    RunAllAppend(w, EMPTY, a, b);
    RunAllAppend(w, EMPTY, a + b, c);
    RunAllAppend(w, EMPTY, a + b + c, d);
    assert Trusted(a + b + c + d);
    assert BothWriting(RunAll(w, EMPTY, a + b + c + d), settings, first, second);
  }

  // ----- leaves never conflict -----

  /** The values whose digests name objects in a run. */
  ghost function HashedValues(w: World, s: System): set<Bytes> {
    (set write | write in s.inFlight && write.Own? :: BodyOf(w, write))
    + (set write | write in s.inFlight && write.Own? :: PublicKey(w, write.work))
  }

  ghost predicate CollisionFree(w: World, values: set<Bytes>) {
    forall x, y :: x in values && y in values && w.sha256(x) == w.sha256(y) ==> x == y
  }

  /** Outside parties put nothing else under the name of an object that an initialiser writes. */
  ghost predicate Unoccupied(w: World, s: System) {
    forall own, foreign ::
      (own in s.inFlight && foreign in s.inFlight && own.Own? && foreign.Foreign? && KeyOf(w, own) == KeyOf(w, foreign))
      ==> BodyOf(w, own) == BodyOf(w, foreign)
  }

  /**
   * Content addressing: an admitted package or public document never meets different content under its name,
   * however many runs have crashed before, as long as no two values of the run collide under SHA-256 and no outside
   * party has occupied the name.
   */
  lemma LeafNeverConflicts(w: World, s: System, work: Work, item: Item)
    requires Inv(w, s) && Own(work, item) in s.inFlight && !item.ManifestItem?
    requires CollisionFree(w, HashedValues(w, s)) && Unoccupied(w, s)
    ensures KeyOf(w, Own(work, item)) in s.store ==> Stored(w, s.store, Own(work, item))
  {
    hide KeyOf;
    hide BodyOf;
    hide ItemGood;
    var write := Own(work, item);
    var key := KeyOf(w, write);
    if key in s.store {
      assert Provenance(w, s, key);
      var other := s.origin[key];
      assert WriteGood(w, s.store, other) && WriteGood(w, s.store, write);
      if other.Own? {
        SameLeaf(w, s, work, item, other.work, other.item);
      }
    }
  }

  /** Two good writes of one name, the first a leaf, carry the same body. */
  lemma SameLeaf(w: World, s: System, work: Work, item: Item, otherWork: Work, otherItem: Item)
    requires Own(work, item) in s.inFlight && Own(otherWork, otherItem) in s.inFlight && !item.ManifestItem?
    requires ItemGood(w, s.store, work, item) && ItemGood(w, s.store, otherWork, otherItem)
    requires KeyOf(w, Own(work, item)) == KeyOf(w, Own(otherWork, otherItem))
    requires CollisionFree(w, HashedValues(w, s))
    ensures BodyOf(w, Own(work, item)) == BodyOf(w, Own(otherWork, otherItem))
  {
    hide WorkGood;
    ItemNameWellFormed(w, s.store, work, item);
    ItemNameWellFormed(w, s.store, otherWork, otherItem);
    ObjectNames.RenderInjective(ItemName(w, work, item).value, ItemName(w, otherWork, otherItem).value);
    match item
    case PublicItem =>
      var x, y := PublicKey(w, work), PublicKey(w, otherWork);
      assert x in HashedValues(w, s) && y in HashedValues(w, s);
      Hex.EncodeInjective(w.sha256(x), w.sha256(y));
    case PackageItem(package) =>
      PackageHashInName(w, s.store, work, package);
      PackageHashInName(w, s.store, otherWork, otherItem.package);
      var x, y := BodyOf(w, Own(work, item)), BodyOf(w, Own(otherWork, otherItem));
      assert x in HashedValues(w, s) && y in HashedValues(w, s);
      Hex.EncodeInjective(w.sha256(x), w.sha256(y));
  }

  lemma PackageHashInName(w: World, store: Store, work: Work, package: RecoveryPackage)
    requires ItemGood(w, store, work, PackageItem(package))
    ensures ItemName(w, work, PackageItem(package)).Ok?
    ensures var name := ItemName(w, work, PackageItem(package)).value;
            name.Package? && name.hash == PackageHash(w, package)
  {
  }
}
