/** The order in which a successful initialisation takes its steps, whatever others do in between. */
module StepOrder {
  import opened Basics
  import opened KeyMaterial
  import opened Commit
  import opened Retry
  import opened Restore
  import opened Initialise

  datatype Kind = Spawned | Checked | Generated | Admitted | Acknowledged | Verified | Tried | Halted

  function KindOf(a: Action): Kind
    requires !a.Land? && !a.Outside?
  {
    match a
    case Spawn(_, _, _) => Spawned
    case CheckAbsent(_) => Checked
    case Generate(_, _, _, _, _) => Generated
    case Admit(_) => Admitted
    case Acknowledge(_) => Acknowledged
    case Verify(_) => Verified
    case TryRestore(_) => Tried
    case Stop(_) => Halted
  }

  /** The steps of one process among some actions. */
  function Kinds(me: nat, actions: seq<Action>): seq<Kind> {
    if actions == [] then []
    else
      var last := actions[|actions| - 1];
      Kinds(me, actions[..|actions| - 1]) + if MovesProcess(last, me) then [KindOf(last)] else []
  }

  lemma {:induction false} KindsAppend(me: nat, first: seq<Action>, second: seq<Action>)
    ensures Kinds(me, first + second) == Kinds(me, first) + Kinds(me, second)
    decreases |second|
  {
    if second == [] {
      assert first + second == first;
    } else {
      var front := second[..|second| - 1];
      assert (first + second)[..|first + second| - 1] == first + front;
      KindsAppend(me, first, front);
    }
  }

  lemma {:induction false} NoKinds(me: nat, actions: seq<Action>)
    requires forall i :: 0 <= i < |actions| ==> !MovesProcess(actions[i], me)
    ensures Kinds(me, actions) == []
    decreases |actions|
  {
    if actions != [] {
      NoKinds(me, actions[..|actions| - 1]);
    }
  }

  /** Between these sessions the process takes exactly these steps. */
  ghost predicate Takes(e: Env, a: Session, b: Session, kinds: seq<Kind>) {
    a.trace <= b.trace && Kinds(e.me, b.trace[|a.trace|..]) == kinds
  }

  lemma TakesTrans(e: Env, a: Session, b: Session, c: Session, first: seq<Kind>, second: seq<Kind>)
    requires Takes(e, a, b, first) && Takes(e, b, c, second)
    ensures Takes(e, a, c, first + second)
  {
    assert c.trace[|a.trace|..] == b.trace[|a.trace|..] + c.trace[|b.trace|..];
    KindsAppend(e.me, b.trace[|a.trace|..], c.trace[|b.trace|..]);
  }

  lemma TakesNothing(e: Env, a: Session, b: Session, own: set<Action>)
    requires Sourced(e, a, b, own) && forall x :: x in own ==> x.Land?
    ensures Takes(e, a, b, [])
  {
    var actions := b.trace[|a.trace|..];
    forall i | 0 <= i < |actions| ensures !MovesProcess(actions[i], e.me) {
      assert actions[i] == b.trace[|a.trace| + i];
    }
    NoKinds(e.me, actions);
  }

  lemma TakesWatch(e: Env, a: Session, b: Session)
    requires Watches(e, a, b)
    ensures Takes(e, a, b, [])
  {
    hide Follows;
    TakesNothing(e, a, b, {});
  }

  lemma TakesAct(e: Env, st: Session, a: Action)
    requires MovesProcess(a, e.me)
    ensures Takes(e, st, Act(e, st, a), [KindOf(a)])
  {
    hide Step;
    assert Act(e, st, a).trace[|st.trace|..] == [a];
    assert [a][..|[a]| - 1] == [];
    assert Kinds(e.me, []) == [];
    assert Kinds(e.me, [a]) == [] + [KindOf(a)];
  }

  /** Nothing, then one step. */
  lemma WatchThenAct(e: Env, st: Session, st1: Session, a: Action)
    requires Watches(e, st, st1) && MovesProcess(a, e.me)
    ensures Takes(e, st, Act(e, st1, a), [KindOf(a)])
  {
    hide Watches;
    hide Act;
    hide Takes;
    TakesWatch(e, st, st1);
    TakesAct(e, st1, a);
    TakesTrans(e, st, st1, Act(e, st1, a), [], [KindOf(a)]);
    assert [] + [KindOf(a)] == [KindOf(a)];
  }

  // ----- each part -----

  lemma SaveItemTakes(site: Site, st: Session, item: Item)
    requires Running(site.env, st) && Mine(site.env, st).phase == Ready(item)
    ensures var (end, r) := SaveItemRun(site, st, item); r.Ok? ==> Takes(site.env, st, end, [Admitted, Acknowledged])
  {
    hide Turn;
    hide Act;
    hide SaveRun;
    hide Watches;
    hide KeyOf;
    hide BodyOf;
    hide Follows;
    hide Sourced;
    hide Takes;
    var e, write := site.env, Own(Mine(site.env, st).work, item);
    var st1 := Turn(e, st);
    TurnWatches(e, st);
    var st2 := Act(e, st1, Admit(e.me));
    WatchThenAct(e, st, st1, Admit(e.me));
    SaveFollows(e, st2, write, 1);
    var st3 := SaveRun(e, st2, write, 1).0;
    TakesNothing(e, st2, st3, {Land(write)});
    TakesTrans(e, st, st2, st3, [Admitted], []);
    TakesAct(e, st3, Acknowledge(e.me));
    TakesTrans(e, st, st3, Act(e, st3, Acknowledge(e.me)), [Admitted] + [], [Acknowledged]);
    assert [Admitted] + [] + [Acknowledged] == [Admitted, Acknowledged];
  }

  lemma VerifyItemTakes(site: Site, st: Session, item: Item)
    requires Running(site.env, st)
    ensures var (end, r) := VerifyItemRun(site, st, item); r.Ok? ==> Takes(site.env, st, end, [Verified])
  {
    hide ClientLoad;
    hide Act;
    hide Watches;
    hide KeyOf;
    hide BodyOf;
    hide Takes;
    var e, work := site.env, Mine(site.env, st).work;
    var key := KeyOf(e.w, Own(work, item));
    ClientLoadWatches(site, st, work.settings.bucket, key);
    WatchThenAct(e, st, ClientLoad(site, st, work.settings.bucket, key).0, Verify(e.me));
  }

  lemma GenerateTakes(site: Site, st: Session)
    requires Running(site.env, st) && HasNextKey(Mine(site.env, st).work)
    ensures var (end, r) := GenerateRun(site, st); r.Ok? ==> Takes(site.env, st, end, [Generated])
  {
    hide Turn;
    hide Act;
    hide Watches;
    hide BuildPackage;
    hide Takes;
    var e := site.env;
    var reply, nonce := e.climate.dataKey(st.ops, NextArn(Mine(e, st).work)), e.climate.nonce(st.ops);
    TurnWatches(e, st);
    WatchThenAct(e, st, Turn(e, st), Generate(e.me, reply.plain, reply.blob, reply.keyId, nonce));
  }

  lemma TrialTakes(site: Site, st: Session, p: RecoveryPackage)
    requires Running(site.env, st) && HasNextKey(Mine(site.env, st).work)
    ensures var (end, r) := TrialRun(site, st, p); r.Ok? ==> Takes(site.env, st, end, [Tried])
  {
    hide Turn;
    hide Act;
    hide Watches;
    hide RestoreFromPackage;
    hide Takes;
    var e, work := site.env, Mine(site.env, st).work;
    TurnWatches(e, st);
    WatchesSame(e, st);
    var st1 := TryPackage(e, st, NextArn(work), work.settings.context, p, PublicKey(e.w, work)).0;
    WatchThenAct(e, st, st1, TryRestore(e.me));
  }

  // ----- the whole -----

  const PACKAGE := [Generated, Admitted, Acknowledged, Verified, Tried]
  const PUBLISH := [Admitted, Acknowledged, Verified, Admitted, Acknowledged]

  lemma PackageTakes(site: Site, st: Session)
    requires Running(site.env, st) && Mine(site.env, st).phase == Generating && HasNextKey(Mine(site.env, st).work)
    ensures var (end, r) := PackageRun(site, st); r.Ok? ==> Takes(site.env, st, end, PACKAGE)
  {
    hide GenerateRun;
    hide SaveItemRun;
    hide VerifyItemRun;
    hide TrialRun;
    hide Progress;
    hide Stored;
    hide HashStored;
    hide KeyOf;
    hide Takes;
    if PackageRun(site, st).1.Ok? {
      var e := site.env;
      GenerateMeaning(site, st);
      GenerateTakes(site, st);
      var (st1, generated) := GenerateRun(site, st);
      var item := PackageItem(generated.value);
      SaveItemMeaning(site, st1, item);
      SaveItemTakes(site, st1, item);
      var st2 := SaveItemRun(site, st1, item).0;
      TakesTrans(e, st, st1, st2, [Generated], [Admitted, Acknowledged]);
      VerifyItemMeaning(site, st2, item);
      VerifyItemTakes(site, st2, item);
      var st3 := VerifyItemRun(site, st2, item).0;
      TakesTrans(e, st, st2, st3, [Generated] + [Admitted, Acknowledged], [Verified]);
      TrialTakes(site, st3, generated.value);
      TakesTrans(e, st, st3, TrialRun(site, st3, generated.value).0,
                 [Generated] + [Admitted, Acknowledged] + [Verified], [Tried]);
      assert [Generated] + [Admitted, Acknowledged] + [Verified] + [Tried] == PACKAGE;
    }
  }

  function Repeated(kinds: seq<Kind>, n: nat): seq<Kind> {
    if n == 0 then [] else kinds + Repeated(kinds, n - 1)
  }

  lemma {:induction false} PackagesTake(site: Site, st: Session)
    requires Running(site.env, st)
    requires Mine(site.env, st).phase == if HasNextKey(Mine(site.env, st).work) then Generating else Ready(PublicItem)
    requires |Mine(site.env, st).work.references| <= |Mine(site.env, st).work.settings.kmsKeys|
    ensures var (end, r) := PackagesRun(site, st); var work := Mine(site.env, st).work;
            r.Ok? ==> Takes(site.env, st, end, Repeated(PACKAGE, |work.settings.kmsKeys| - |work.references|))
    decreases |Mine(site.env, st).work.settings.kmsKeys| - |Mine(site.env, st).work.references|
  {
    hide PackageRun;
    hide Progress;
    hide Takes;
    var e, work := site.env, Mine(site.env, st).work;
    if !HasNextKey(work) {
      WatchesSame(e, st);
      TakesWatch(e, st, st);
    } else if PackagesRun(site, st).1.Ok? {
      PackageMeaning(site, st);
      PackageTakes(site, st);
      var st1 := PackageRun(site, st).0;
      PackagesTake(site, st1);
      var left := |work.settings.kmsKeys| - |work.references|;
      TakesTrans(e, st, st1, PackagesRun(site, st1).0, PACKAGE, Repeated(PACKAGE, left - 1));
    }
  }

  lemma PublishTakes(site: Site, st: Session)
    requires Running(site.env, st) && Mine(site.env, st).phase == Ready(PublicItem)
    ensures var (end, r) := PublishRun(site, st); r.Ok? ==> Takes(site.env, st, end, PUBLISH)
  {
    hide SaveItemRun;
    hide VerifyItemRun;
    hide Progress;
    hide Stored;
    hide HashStored;
    hide KeyOf;
    hide Takes;
    if PublishRun(site, st).1.Ok? {
      var e := site.env;
      SaveItemMeaning(site, st, PublicItem);
      SaveItemTakes(site, st, PublicItem);
      var st1 := SaveItemRun(site, st, PublicItem).0;
      VerifyItemMeaning(site, st1, PublicItem);
      VerifyItemTakes(site, st1, PublicItem);
      var st2 := VerifyItemRun(site, st1, PublicItem).0;
      TakesTrans(e, st, st1, st2, [Admitted, Acknowledged], [Verified]);
      SaveItemTakes(site, st2, ManifestItem);
      TakesTrans(e, st, st2, SaveItemRun(site, st2, ManifestItem).0, [Admitted, Acknowledged] + [Verified],
                 [Admitted, Acknowledged]);
      assert [Admitted, Acknowledged] + [Verified] + [Admitted, Acknowledged] == PUBLISH;
    }
  }

  lemma CheckTakes(site: Site, settings: Settings, seed: Bytes32, st: Session)
    ensures var (end, r) := CheckRun(site, settings, seed, st); r.Ok? ==> Takes(site.env, st, end, [Spawned, Checked])
  {
    hide ClientLoad;
    hide Act;
    hide ManifestKey;
    hide Watches;
    hide Takes;
    var e, key := site.env, ManifestKey(settings.prefix);
    var st0 := Act(e, st, Spawn(e.me, settings, seed));
    TakesAct(e, st, Spawn(e.me, settings, seed));
    ClientLoadWatches(site, st0, settings.bucket, key);
    var st1 := ClientLoad(site, st0, settings.bucket, key).0;
    WatchThenAct(e, st0, st1, CheckAbsent(e.me));
    TakesTrans(e, st, st0, Act(e, st1, CheckAbsent(e.me)), [Spawned], [Checked]);
    assert [Spawned] + [Checked] == [Spawned, Checked];
  }

  /**
   * A successful initialisation checks first, then for each of the two keys generates, saves, verifies and tries the
   * package, then saves and verifies the public document, and saves the manifest last: exactly these steps, in this
   * order.
   */
  lemma SuccessfulStepsInOrder(site: Site, settings: Settings, seed: Bytes32, st: Session)
    requires !Running(site.env, st) && ValidateConfiguration(settings).Ok?
    ensures var (end, r) := InitialiseRun(site, settings, seed, st);
            r.Ok? ==>
              Takes(site.env, st, end,
                    [Spawned, Checked,
                     Generated, Admitted, Acknowledged, Verified, Tried,
                     Generated, Admitted, Acknowledged, Verified, Tried,
                     Admitted, Acknowledged, Verified,
                     Admitted, Acknowledged])
  {
    hide CheckRun;
    hide PackagesRun;
    hide PublishRun;
    hide Progress;
    hide Act;
    hide ManifestKey;
    hide ValidateConfiguration;
    hide Takes;
    if InitialiseRun(site, settings, seed, st).1.Ok? {
      var e := site.env;
      ConfiguredKeys(settings);
      CheckMeaning(site, settings, seed, st);
      CheckTakes(site, settings, seed, st);
      var st1 := CheckRun(site, settings, seed, st).0;
      PackagesMeaning(site, st1);
      PackagesTake(site, st1);
      var st2 := PackagesRun(site, st1).0;
      PublishTakes(site, st2);
      var packages := Repeated(PACKAGE, 2);
      assert packages == PACKAGE + PACKAGE by { assert Repeated(PACKAGE, 1) == PACKAGE + Repeated(PACKAGE, 0); }
      TakesTrans(e, st, st1, st2, [Spawned, Checked], packages);
      TakesTrans(e, st, st2, PublishRun(site, st2).0, [Spawned, Checked] + packages, PUBLISH);
      assert [Spawned, Checked] + packages + PUBLISH
             == [Spawned, Checked,
                 Generated, Admitted, Acknowledged, Verified, Tried,
                 Generated, Admitted, Acknowledged, Verified, Tried,
                 Admitted, Acknowledged, Verified,
                 Admitted, Acknowledged];
    }
  }
}
