/** The broker as a guarded store: per-connection dispatch, and every interleaving of its threads. */
module Broker {
  import opened Basics
  import opened KeyMaterial
  import opened Commit
  import opened Retry
  import ObjectNames

  datatype Request =
    | GetSettings
    | GetAwsCredentials(slot: KmsSlot)
    | LoadObject(bucket: string, key: string)
    | SaveObjectIfAbsent(bucket: string, key: string, body: Bytes)

  /** `providers` are the slots for which a credentials provider is configured. */
  datatype Config = Config(settings: Settings, allowedCid: Option<nat>, providers: set<KmsSlot>)

  datatype Connection = Connection(peerCid: Option<nat>, request: Request)

  /** What a thread does with its connection. */
  datatype Verdict =
    | Refuse
    | SendSettings
    | FetchCredentials(slot: KmsSlot, region: Option<string>)
    | Load(key: string)
    | Save(key: string, body: Bytes)

  predicate PeerAllowed(c: Config, peerCid: Option<nat>) {
    c.allowedCid.None? || peerCid == c.allowedCid
  }

  predicate BelowPrefix(c: Config, bucket: string, key: string) {
    ObjectNames.TargetAllowed(bucket, key, c.settings.bucket, c.settings.prefix)
  }

  function FindSlot(keys: seq<KmsKey>, slot: KmsSlot): Option<KmsKey> {
    if keys == [] then None else if keys[0].slot == slot then Some(keys[0]) else FindSlot(keys[1..], slot)
  }

  /** The gates in order: peer, then per request the mode and the target. */
  function Dispatch(c: Config, connection: Connection): Verdict {
    if c.allowedCid.Some? && connection.peerCid != c.allowedCid then Refuse
    else match connection.request
      case GetSettings => SendSettings
      case GetAwsCredentials(slot) =>
        if slot !in c.providers then Refuse
        else
          var found := FindSlot(c.settings.kmsKeys, slot);
          FetchCredentials(slot, if found.Some? then Some(found.value.region) else None)
      case LoadObject(bucket, key) => if BelowPrefix(c, bucket, key) then Load(key) else Refuse
      case SaveObjectIfAbsent(bucket, key, body) =>
        if c.settings.startupMode != InitKey then Refuse
        else if BelowPrefix(c, bucket, key) then Save(key, body) else Refuse
  }

  ghost predicate IsFirst(keys: seq<KmsKey>, slot: KmsSlot, region: string, i: int) {
    && 0 <= i < |keys| && keys[i].slot == slot && keys[i].region == region
    && forall j :: 0 <= j < i ==> keys[j].slot != slot
  }

  /** The region of the first key configured for the slot. */
  ghost predicate RegionOfSlot(keys: seq<KmsKey>, slot: KmsSlot, region: string) {
    exists i :: IsFirst(keys, slot, region, i)
  }

  lemma {:induction false} FoundSlot(keys: seq<KmsKey>, slot: KmsSlot, region: string)
    ensures RegionOfSlot(keys, slot, region) <==> FindSlot(keys, slot).Some? && FindSlot(keys, slot).value.region == region
  {
    if keys != [] && keys[0].slot != slot {
      var rest := keys[1..];
      assert forall j :: 0 <= j < |rest| ==> rest[j] == keys[j + 1];
      FoundSlot(rest, slot, region);
      if RegionOfSlot(rest, slot, region) {
        var i :| IsFirst(rest, slot, region, i);
        assert IsFirst(keys, slot, region, i + 1);
      }
      if RegionOfSlot(keys, slot, region) {
        var i :| IsFirst(keys, slot, region, i);
        assert IsFirst(rest, slot, region, i - 1);
      }
    } else if keys != [] {
      assert keys[0].region == region ==> IsFirst(keys, slot, region, 0);
    }
  }

  lemma FoundNoSlot(keys: seq<KmsKey>, slot: KmsSlot)
    ensures FindSlot(keys, slot).None? <==> forall key :: key in keys ==> key.slot != slot
  {
  }

  /**
   * The gates, per effect: a provider is asked only for a slot that has one, and its credentials are for the region of
   * the first key of that slot, or for none; a load or save happens exactly on request below the prefix, a save only in init-key mode; and nothing
   * happens for a peer that is not allowed.
   */
  lemma DispatchExact(c: Config, peerCid: Option<nat>, request: Request, slot: KmsSlot, region: string, key: string, body: Bytes)
    ensures var v := Dispatch(c, Connection(peerCid, request));
            var allowed := c.allowedCid == None || peerCid == c.allowedCid;
            && (PeerAllowed(c, peerCid) <==> allowed)
            && (v == FetchCredentials(slot, Some(region)) <==>
                  && allowed && request == GetAwsCredentials(slot) && slot in c.providers
                  && RegionOfSlot(c.settings.kmsKeys, slot, region))
            && (v == FetchCredentials(slot, None) <==>
                  && allowed && request == GetAwsCredentials(slot) && slot in c.providers
                  && forall k :: k in c.settings.kmsKeys ==> k.slot != slot)
            && (v == Load(key) <==>
                  && allowed && request == LoadObject(c.settings.bucket, key)
                  && c.settings.prefix + "/" <= key)
            && (v == Save(key, body) <==>
                  && allowed && request == SaveObjectIfAbsent(c.settings.bucket, key, body)
                  && c.settings.startupMode == InitKey && c.settings.prefix + "/" <= key)
            && (v.SendSettings? <==> allowed && request.GetSettings?)
  {
    FoundSlot(c.settings.kmsKeys, slot, region);
    FoundNoSlot(c.settings.kmsKeys, slot);
    hide FindSlot;
    hide RegionOfSlot;
  }

  // ----- all threads together -----

  /** The store, and for each thread the write it was allowed to make. */
  datatype Broker = Broker(store: Store, admitted: map<nat, (string, Bytes)>)

  /** A thread accepts a connection; an allowed write takes effect at any later moment, possibly repeatedly or never. */
  datatype Event = Accept(thread: nat, connection: Connection) | Put(thread: nat)

  function BrokerStep(c: Config, b: Broker, event: Event): Broker {
    match event
    case Accept(thread, connection) =>
      var verdict := Dispatch(c, connection);
      if verdict.Save? && thread !in b.admitted
      then b.(admitted := b.admitted[thread := (verdict.key, verdict.body)]) else b
    case Put(thread) =>
      if thread in b.admitted
      then b.(store := InsertIfAbsent(b.store, b.admitted[thread].0, b.admitted[thread].1)) else b
  }

  function BrokerRun(c: Config, b: Broker, events: seq<Event>): Broker {
    if events == [] then b else BrokerStep(c, BrokerRun(c, b, events[..|events| - 1]), events[|events| - 1])
  }

  /** Some accepted connection, from an allowed peer of an init-key broker, asked to save exactly this below the prefix. */
  ghost predicate Requested(c: Config, events: seq<Event>, key: string, body: Bytes) {
    && c.settings.startupMode == InitKey
    && BelowPrefix(c, c.settings.bucket, key)
    && exists i :: && 0 <= i < |events| && events[i].Accept?
                   && PeerAllowed(c, events[i].connection.peerCid)
                   && events[i].connection.request == SaveObjectIfAbsent(c.settings.bucket, key, body)
  }

  lemma RequestedGrows(c: Config, events: seq<Event>, event: Event, key: string, body: Bytes)
    requires Requested(c, events, key, body)
    ensures Requested(c, events + [event], key, body)
  {
    var i :| 0 <= i < |events| && events[i].Accept? && PeerAllowed(c, events[i].connection.peerCid)
             && events[i].connection.request == SaveObjectIfAbsent(c.settings.bucket, key, body);
    assert (events + [event])[i] == events[i];
  }

  lemma AdmissionRequested(c: Config, events: seq<Event>, event: Event)
    requires event.Accept? && Dispatch(c, event.connection).Save?
    ensures var v := Dispatch(c, event.connection); Requested(c, events + [event], v.key, v.body)
  {
    var all := events + [event];
    assert all[|events|] == event;
  }

  /** Everything admitted, and everything the store has gained, was requested. */
  lemma {:induction false} RunInvariant(c: Config, start: Store, events: seq<Event>)
    ensures var b := BrokerRun(c, Broker(start, map[]), events);
            && (forall thread :: thread in b.admitted ==>
                  Requested(c, events, b.admitted[thread].0, b.admitted[thread].1))
            && Extends(start, b.store)
            && (forall key :: key in b.store && key !in start ==> Requested(c, events, key, b.store[key]))
  {
    if events != [] {
      var front, last := events[..|events| - 1], events[|events| - 1];
      RunInvariant(c, start, front);
      var b, b' := BrokerRun(c, Broker(start, map[]), front), BrokerRun(c, Broker(start, map[]), events);
      assert events == front + [last];
      forall thread | thread in b'.admitted
        ensures Requested(c, events, b'.admitted[thread].0, b'.admitted[thread].1)
      {
        if thread in b.admitted {
          RequestedGrows(c, front, last, b.admitted[thread].0, b.admitted[thread].1);
        } else {
          AdmissionRequested(c, front, last);
        }
      }
      forall key | key in b'.store && key !in start ensures Requested(c, events, key, b'.store[key]) {
        if key in b.store {
          RequestedGrows(c, front, last, key, b.store[key]);
        } else {
          RequestedGrows(c, front, last, b.admitted[last.thread].0, b.admitted[last.thread].1);
        }
      }
    }
  }

  /**
   * Frame of the broker, over all request sequences and interleavings: nothing changes or disappears, whatever
   * appears was requested below the prefix by an allowed peer of an init-key broker, each event adds at most one
   * object, and a serve-mode broker never changes the store.
   */
  lemma BrokerFrame(c: Config, start: Store, events: seq<Event>, next: Event)
    ensures var b := BrokerRun(c, Broker(start, map[]), events);
            var b' := BrokerRun(c, Broker(start, map[]), events + [next]);
            && Extends(start, b.store)
            && (forall key :: key in b.store && key !in start ==> Requested(c, events, key, b.store[key]))
            && (b'.store == b.store
                || exists key, body :: key !in b.store && b'.store == b.store[key := body] && Requested(c, events, key, body))
            && (c.settings.startupMode == Serve ==> b.store == start)
  {
    RunInvariant(c, start, events);
    var b := BrokerRun(c, Broker(start, map[]), events);
    assert (events + [next])[..|events|] == events;
    if next.Put? && next.thread in b.admitted && b.admitted[next.thread].0 !in b.store {
      var (key, body) := b.admitted[next.thread];
      assert Requested(c, events, key, body);
      assert key !in b.store;
    }
    if c.settings.startupMode == Serve {
      assert forall key :: key in b.store ==> key in start;
    }
  }

  // ----- one thread -----

  datatype Response = SettingsSent(settings: Settings) | Credentials(region: string) | Object(body: Option<Bytes>)
                    | Saved | Error

  lemma SourcedMore(e: Env, a: Session, b: Session, own: set<Action>, more: set<Action>)
    requires Sourced(e, a, b, own) && own <= more
    ensures Sourced(e, a, b, more)
  {
  }

  lemma NothingFollows(e: Env, st: Session, own: set<Action>)
    ensures Follows(e, st, st) && Sourced(e, st, st, own)
  {
    assert st.trace[|st.trace|..] == [];
  }

  /** The actions of its own that a thread may take for a connection. */
  function OwnActions(c: Config, connection: Connection): set<Action> {
    match Dispatch(c, connection)
    case Save(key, body) => {Outside(key, body), Land(Foreign(key, body))}
    case _ => {}
  }

  /** The broker's side of a save: the write is taken on without its origin, then put. */
  function ServeSave(e: Env, st: Session, key: string, body: Bytes): (Session, Result<(), Error>) {
    SaveRun(e, Act(e, st, Outside(key, body)), Foreign(key, body), 1)
  }

  /**
   * Origin does not matter: serving the request that carries an admitted item has the same result and the same effect
   * on the store, with the same operations, as the save of that item itself.
   */
  lemma ServedSaveIsOwnSave(e: Env, st: Session, own: Write)
    requires own in st.sys.inFlight && own.Own?
    requires UsedHere(e, st, Foreign(KeyOf(e.w, own), BodyOf(e.w, own)))
    ensures var (a, r) := SaveRun(e, st, own, 1); var (b, served) := ServeSave(e, st, KeyOf(e.w, own), BodyOf(e.w, own));
            && served == r && b.sys.store == a.sys.store && b.sys.processes == a.sys.processes
            && b.ops == a.ops && b.gets == a.gets && b.puts == a.puts && b.sleptMs == a.sleptMs
  {
    hide SaveRun;
    hide KeyOf;
    hide BodyOf;
    var foreign := Foreign(KeyOf(e.w, own), BodyOf(e.w, own));
    assert KeyOf(e.w, foreign) == KeyOf(e.w, own) && BodyOf(e.w, foreign) == BodyOf(e.w, own) by { ForeignMeans(e.w, own); }
    SameSave(e, st, Act(e, st, Outside(foreign.key, foreign.body)), own, foreign, 1);
  }

  lemma ForeignMeans(w: World, own: Write)
    ensures var foreign := Foreign(KeyOf(w, own), BodyOf(w, own));
            KeyOf(w, foreign) == KeyOf(w, own) && BodyOf(w, foreign) == BodyOf(w, own)
  {
  }

  // ----- threads as seen by the store -----

  /** What threads of this broker do to the store: take on a write that passes the gates, and land writes. */
  ghost predicate ThreadAction(c: Config, a: Action) {
    match a
    case Outside(key, body) => exists connection :: Dispatch(c, connection) == Save(key, body)
    case Admit(_) => false
    case _ => true
  }

  ghost predicate ThreadClimate(c: Config, climate: Climate) {
    forall n, a :: a in climate.others(n) ==> ThreadAction(c, a)
  }

  /** The same store, and a thread for every write in flight. */
  ghost predicate Simulates(w: World, b: Broker, s: System) {
    b.store == s.store && forall write :: write in s.inFlight ==> HasThread(w, b, write)
  }

  ghost predicate HasThread(w: World, b: Broker, write: Write) {
    exists thread :: thread in b.admitted && b.admitted[thread] == (KeyOf(w, write), BodyOf(w, write))
  }

  lemma FreshThread(threads: set<nat>) returns (unused: nat)
    ensures forall thread :: thread in threads ==> thread < unused
  {
    if threads == {} {
      unused := 0;
    } else {
      var one :| one in threads;
      var rest := FreshThread(threads - {one});
      unused := if one < rest then rest else one + 1;
      assert forall thread :: thread in threads ==> thread == one || thread in threads - {one};
    }
  }

  lemma AcceptSimulates(w: World, c: Config, b: Broker, s: System, key: string, body: Bytes) returns (event: Event)
    requires Simulates(w, b, s) && ThreadAction(c, Outside(key, body))
    ensures Simulates(w, BrokerStep(c, b, event), Step(w, s, Outside(key, body)))
  {
    hide Dispatch;
    hide ItemName;
    hide ItemBody;
    var connection :| Dispatch(c, connection) == Save(key, body);
    var unused := FreshThread(b.admitted.Keys);
    event := Accept(unused, connection);
    var b', s' := BrokerStep(c, b, event), Step(w, s, Outside(key, body));
    forall write | write in s'.inFlight ensures HasThread(w, b', write) {
      if write in s.inFlight {
        assert HasThread(w, b, write);
        var thread :| thread in b.admitted && b.admitted[thread] == (KeyOf(w, write), BodyOf(w, write));
        assert b'.admitted[thread] == b.admitted[thread];
      } else {
        assert b'.admitted[unused] == (KeyOf(w, write), BodyOf(w, write));
      }
    }
  }

  lemma PutSimulates(w: World, c: Config, b: Broker, s: System, write: Write) returns (event: Event)
    requires Simulates(w, b, s) && write in s.inFlight
    ensures Simulates(w, BrokerStep(c, b, event), Step(w, s, Land(write)))
  {
    hide KeyOf;
    hide BodyOf;
    assert HasThread(w, b, write);
    var thread :| thread in b.admitted && b.admitted[thread] == (KeyOf(w, write), BodyOf(w, write));
    event := Put(thread);
    var b', s' := BrokerStep(c, b, event), Step(w, s, Land(write));
    forall other | other in s'.inFlight ensures HasThread(w, b', other) {
      assert HasThread(w, b, other);
    }
  }

  lemma IdleSimulates(w: World, c: Config, b: Broker, s: System, a: Action) returns (event: Event)
    requires Simulates(w, b, s) && !a.Outside? && !a.Admit? && (a.Land? ==> a.write !in s.inFlight)
    ensures Simulates(w, BrokerStep(c, b, event), Step(w, s, a))
  {
    hide KeyOf;
    hide BodyOf;
    hide BuildPackage;
    hide AfterTry;
    var unused := FreshThread(b.admitted.Keys);
    event := Put(unused);
  }

  /** Every run of thread actions is, for the store, a run of the broker's event machine. */
  lemma {:induction false} RunSimulates(w: World, c: Config, b: Broker, s: System, actions: seq<Action>)
    returns (events: seq<Event>)
    requires Simulates(w, b, s) && forall i :: 0 <= i < |actions| ==> ThreadAction(c, actions[i])
    ensures Simulates(w, BrokerRun(c, b, events), RunAll(w, s, actions))
    decreases |actions|
  {
    hide Simulates;
    hide Step;
    if actions == [] {
      events := [];
    } else {
      var front, last := actions[..|actions| - 1], actions[|actions| - 1];
      var before := RunSimulates(w, c, b, s, front);
      assert actions == front + [last];
      RunAllAppend(w, s, front, [last]);
      var middle, t := BrokerRun(c, b, before), RunAll(w, s, front);
      assert [last][1..] == [] && RunAll(w, t, [last]) == RunAll(w, Step(w, t, last), []);
      var event := StepSimulates(w, c, middle, t, last);
      events := before + [event];
      assert events[..|events| - 1] == before;
    }
  }

  lemma StepSimulates(w: World, c: Config, b: Broker, s: System, a: Action) returns (event: Event)
    requires Simulates(w, b, s) && ThreadAction(c, a)
    ensures Simulates(w, BrokerStep(c, b, event), Step(w, s, a))
  {
    hide Simulates;
    hide Step;
    if a.Outside? {
      event := AcceptSimulates(w, c, b, s, a.key, a.body);
    } else if a.Land? && a.write in s.inFlight {
      event := PutSimulates(w, c, b, s, a.write);
    } else {
      event := IdleSimulates(w, c, b, s, a);
    }
  }

  /** From every broker that fits the earlier state, some run of the event machine leads to one that fits the later. */
  ghost predicate BrokerRunsOn(w: World, c: Config, s: System, t: System) {
    forall b | Simulates(w, b, s) :: exists events :: Simulates(w, BrokerRun(c, b, events), t)
  }

  /** A session among threads of this broker, with own actions of such a thread, is a run of the event machine. */
  lemma SessionIsBrokerRun(e: Env, c: Config, before: Session, after: Session, connection: Connection)
    requires Follows(e, before, after) && Sourced(e, before, after, OwnActions(c, connection))
    requires ThreadClimate(c, e.climate)
    ensures BrokerRunsOn(e.w, c, before.sys, after.sys)
  {
    hide Simulates;
    hide RunAll;
    hide Dispatch;
    var actions := after.trace[|before.trace|..];
    forall i | 0 <= i < |actions| ensures ThreadAction(c, actions[i]) {
      var a := after.trace[|before.trace| + i];
      assert a in OwnActions(c, connection) || FromOthers(e, before.ops, after.ops, a);
    }
    forall b | Simulates(e.w, b, before.sys) ensures exists events :: Simulates(e.w, BrokerRun(c, b, events), after.sys) {
      var events := RunSimulates(e.w, c, b, before.sys, actions);
    }
  }

  class Server {
    const config: Config
    const s3: S3Client

    constructor (config: Config, s3: S3Client)
      ensures this.config == config && this.s3 == s3
    {
      this.config := config;
      this.s3 := s3;
    }

    /**
     * Serves one connection. A refused request leaves everything as it was; a load takes no action of its own; a
     * save only ever admits and lands the one object that passed the gates. Among threads of the same broker, what
     * happens to the store meanwhile is a run of the broker's event machine.
     */
    method Handle(connection: Connection) returns (response: Response)
      modifies s3
      ensures Extends(old(s3.sys.store), s3.sys.store)
      ensures Follows(s3.env, old(s3.Now()), s3.Now())
      ensures Sourced(s3.env, old(s3.Now()), s3.Now(), OwnActions(config, connection))
      ensures ThreadClimate(config, s3.env.climate) ==> BrokerRunsOn(s3.env.w, config, old(s3.sys), s3.sys)
      ensures match Dispatch(config, connection)
              case Refuse => response.Error? && s3.Now() == old(s3.Now())
              case SendSettings => response == SettingsSent(config.settings) && s3.Now() == old(s3.Now())
              case FetchCredentials(slot, region) =>
                && s3.Now() == Turn(s3.env, old(s3.Now()))
                && response == if s3.env.climate.fate(old(s3.ops), ProvideCredentials(slot)).Answered? && region.Some?
                               then Credentials(region.value) else Error
              case Load(key) =>
                && s3.Now() == LoadRun(s3.env, old(s3.Now()), key, 1).0
                && (response == Object(Lookup(s3.sys.store, key)) || response.Error?)
                && (response.Object? <==> LoadRun(s3.env, old(s3.Now()), key, 1).1.Ok?)
              case Save(key, body) =>
                && s3.Now() == ServeSave(s3.env, old(s3.Now()), key, body).0
                && response == (if ServeSave(s3.env, old(s3.Now()), key, body).1.Ok? then Saved else Error)
                && (response.Saved? ==> Lookup(s3.sys.store, key) == Some(body))
    {
      hide Turn;
      hide Follows;
      hide Sourced;
      hide Dispatch;
      hide BrokerRunsOn;
      hide ThreadClimate;
      ghost var start, own := s3.Now(), OwnActions(config, connection);
      match Dispatch(config, connection) {
        case Refuse =>
          response := Error;
          NothingFollows(s3.env, start, own);
        case SendSettings =>
          response := SettingsSent(config.settings);
          NothingFollows(s3.env, start, own);
        case FetchCredentials(slot, region) =>
          var fate := s3.env.climate.fate(s3.ops, ProvideCredentials(slot));
          s3.BeginOperation();
          TurnFollows(s3.env, start, start.gets, start.puts, start.sleptMs, own);
          response := if fate.Answered? && region.Some? then Credentials(region.value) else Error;
        case Load(key) =>
          var r := s3.LoadObject(key);
          response := if r.Ok? then Object(r.value) else Error;
        case Save(key, body) =>
          s3.Perform(Outside(key, body));
          ghost var admitted := s3.Now();
          var r := s3.SaveIfAbsent(Foreign(key, body));
          ActFollows(s3.env, start, Outside(key, body), own);
          SourcedMore(s3.env, admitted, s3.Now(), {Land(Foreign(key, body))}, own);
          FollowsTrans(s3.env, start, admitted, s3.Now(), own);
          response := if r.Ok? then Saved else Error;
      }
      ContinuationGrows(s3.env, start, s3.Now());
      if ThreadClimate(config, s3.env.climate) {
        SessionIsBrokerRun(s3.env, config, start, s3.Now(), connection);
      }
    }
  }
}
