/**
 * The broker's retrying S3 client, run against a store that other parties keep changing. What the surroundings do
 * is a `Climate`: which actions of others take place before each operation, and how the operation fares.
 */
module Retry {
  import opened Basics
  import opened KeyMaterial
  import opened Commit

  const MAX_ATTEMPTS: nat := 4

  datatype Op =
    | GetObject(key: string)
    | PutObject(key: string)
    | Call(key: string)
    | FetchSettings
    | GenerateKey(arn: string)
    | DecryptKey(arn: string)
    | ProvideCredentials(slot: KmsSlot)

  /**
   * An operation is answered, loses its connection, or fails otherwise. A failed put or call may have taken
   * effect all the same.
   */
  datatype Fate = Answered | Disconnected(applied: bool) | Failed(applied: bool)

  datatype DataKeyReply = DataKeyReply(plain: Bytes, blob: Bytes, keyId: string)

  datatype Climate = Climate(
    others: nat -> seq<Action>, fate: (nat, Op) -> Fate, dataKey: (nat, string) -> DataKeyReply, nonce: nat -> Bytes12)

  /** One process of interest in one world and climate. */
  datatype Env = Env(w: World, climate: Climate, me: nat)

  /** The system at one moment, the actions so far, and counters of operations and of backoff. */
  datatype Session = Session(sys: System, trace: seq<Action>, ops: nat, gets: nat, puts: nat, sleptMs: nat)

  predicate MovesProcess(a: Action, me: nat) {
    !a.Land? && !a.Outside? && a.pid == me
  }

  /** Others never act for `me`. */
  function OthersOnly(me: nat, actions: seq<Action>): (kept: seq<Action>)
    ensures forall i :: 0 <= i < |kept| ==> !MovesProcess(kept[i], me) && kept[i] in actions
    ensures (forall i :: 0 <= i < |actions| ==> !MovesProcess(actions[i], me)) ==> kept == actions
    ensures forall a :: a in actions && !MovesProcess(a, me) ==> a in kept
  {
    if actions == [] then []
    else (if MovesProcess(actions[0], me) then [] else [actions[0]]) + OthersOnly(me, actions[1..])
  }

  /** The surroundings act, and one operation begins. */
  function Turn(e: Env, st: Session): (later: Session)
    ensures later.ops == st.ops + 1
    ensures later.gets == st.gets && later.puts == st.puts && later.sleptMs == st.sleptMs
  {
    var actions := OthersOnly(e.me, e.climate.others(st.ops));
    st.(sys := RunAll(e.w, st.sys, actions), trace := st.trace + actions, ops := st.ops + 1)
  }

  function Act(e: Env, st: Session, a: Action): (later: Session)
    ensures later.ops == st.ops && later.gets == st.gets && later.puts == st.puts && later.sleptMs == st.sleptMs
  {
    st.(sys := Step(e.w, st.sys, a), trace := st.trace + [a])
  }

  function Sleep(st: Session, attempt: nat): Session {
    st.(sleptMs := st.sleptMs + 250 * attempt)
  }

  /** `get_object`, retried only when the connection was lost. */
  function LoadRun(e: Env, st: Session, key: string, attempt: nat): (Session, Result<Option<Bytes>, Error>)
    requires 1 <= attempt <= MAX_ATTEMPTS
    decreases MAX_ATTEMPTS - attempt
  {
    var fate := e.climate.fate(st.ops, GetObject(key));
    var st1 := Turn(e, st).(gets := st.gets + 1);
    match fate
    case Answered => (st1, Ok(Lookup(st1.sys.store, key)))
    case Disconnected(_) =>
      if attempt < MAX_ATTEMPTS then LoadRun(e, Sleep(st1, attempt), key, attempt + 1) else (st1, Err(Transport))
    case Failed(_) => (st1, Err(Transport))
  }

  /** `put_object` with `If-None-Match: *`; a 412 answer is compared with what is stored. */
  function SaveRun(e: Env, st: Session, write: Write, attempt: nat): (Session, Result<(), Error>)
    requires 1 <= attempt <= MAX_ATTEMPTS
    decreases MAX_ATTEMPTS - attempt
  {
    var key := KeyOf(e.w, write);
    var fate := e.climate.fate(st.ops, PutObject(key));
    var st1 := Turn(e, st).(puts := st.puts + 1);
    match fate
    case Answered =>
      if key !in st1.sys.store then (Act(e, st1, Land(write)), Ok(()))
      else
        var (st2, existing) := LoadRun(e, st1, key, 1);
        (st2, CompareExisting(existing, BodyOf(e.w, write)))
    case Disconnected(applied) =>
      var st2 := Applied(e, st1, write, applied);
      if attempt < MAX_ATTEMPTS then SaveRun(e, Sleep(st2, attempt), write, attempt + 1) else (st2, Err(Transport))
    case Failed(applied) => (Applied(e, st1, write, applied), Err(Transport))
  }

  function Applied(e: Env, st: Session, write: Write, applied: bool): (later: Session)
    ensures later.ops == st.ops && later.gets == st.gets && later.puts == st.puts && later.sleptMs == st.sleptMs
  {
    if applied then Act(e, st, Land(write)) else st
  }

  function CompareExisting(existing: Result<Option<Bytes>, Error>, expected: Bytes): Result<(), Error> {
    match existing
    case Err(error) => Err(error)
    case Ok(found) => if found == Some(expected) then Ok(()) else Err(Conflict)
  }

  // ----- sessions are runs of the system -----

  /** The later session continues the earlier one by the recorded actions. */
  ghost predicate Follows(e: Env, earlier: Session, later: Session) {
    && earlier.trace <= later.trace
    && later.sys == RunAll(e.w, earlier.sys, later.trace[|earlier.trace|..])
    && earlier.ops <= later.ops && earlier.gets <= later.gets && earlier.puts <= later.puts
    && earlier.sleptMs <= later.sleptMs
  }

  /** Every new action was contributed by the surroundings or is one of `own`. */
  ghost predicate Sourced(e: Env, earlier: Session, later: Session, own: set<Action>) {
    && earlier.trace <= later.trace
    && forall i :: |earlier.trace| <= i < |later.trace| ==>
         later.trace[i] in own || FromOthers(e, earlier.ops, later.ops, later.trace[i])
  }

  ghost predicate FromOthers(e: Env, start: nat, end: nat, a: Action) {
    !MovesProcess(a, e.me) && exists n: nat :: start <= n < end && a in e.climate.others(n)
  }

  lemma FollowsTrans(e: Env, a: Session, b: Session, c: Session, own: set<Action>)
    requires Follows(e, a, b) && Follows(e, b, c) && Sourced(e, a, b, own) && Sourced(e, b, c, own)
    ensures Follows(e, a, c) && Sourced(e, a, c, own)
  {
    var first, second := b.trace[|a.trace|..], c.trace[|b.trace|..];
    RunAllAppend(e.w, a.sys, first, second);
    assert c.trace[|a.trace|..] == first + second;
    forall i | |a.trace| <= i < |c.trace| ensures c.trace[i] in own || FromOthers(e, a.ops, c.ops, c.trace[i]) {
      if i < |b.trace| {
        assert c.trace[i] == b.trace[i];
      }
    }
  }

  lemma TurnFollows(e: Env, st: Session, gets: nat, puts: nat, sleptMs: nat, own: set<Action>)
    requires st.gets <= gets && st.puts <= puts && st.sleptMs <= sleptMs
    ensures var later := Turn(e, st).(gets := gets, puts := puts, sleptMs := sleptMs);
            Follows(e, st, later) && Sourced(e, st, later, own)
  {
    var actions := OthersOnly(e.me, e.climate.others(st.ops));
    var later := Turn(e, st).(gets := gets, puts := puts, sleptMs := sleptMs);
    assert later.trace[|st.trace|..] == actions;
    forall i | |st.trace| <= i < |later.trace| ensures FromOthers(e, st.ops, later.ops, later.trace[i]) {
      assert later.trace[i] == actions[i - |st.trace|];
    }
  }

  lemma ActFollows(e: Env, st: Session, a: Action, own: set<Action>)
    requires a in own
    ensures Follows(e, st, Act(e, st, a)) && Sourced(e, st, Act(e, st, a), own)
  {
    assert Act(e, st, a).trace[|st.trace|..] == [a];
    assert RunAll(e.w, st.sys, [a]) == RunAll(e.w, Step(e.w, st.sys, a), []);
  }

  lemma SleepFollows(e: Env, st: Session, attempt: nat, own: set<Action>)
    ensures Follows(e, st, Sleep(st, attempt)) && Sourced(e, st, Sleep(st, attempt), own)
  {
    assert st.trace[|st.trace|..] == [];
  }

  lemma {:induction false} LoadFollows(e: Env, st: Session, key: string, attempt: nat, own: set<Action>)
    requires 1 <= attempt <= MAX_ATTEMPTS
    ensures var st1 := LoadRun(e, st, key, attempt).0; Follows(e, st, st1) && Sourced(e, st, st1, own)
    decreases MAX_ATTEMPTS - attempt
  {
    hide Follows;
    hide Sourced;
    hide RunAll;
    hide Step;
    hide Turn;
    var st1 := Turn(e, st).(gets := st.gets + 1);
    TurnFollows(e, st, st.gets + 1, st.puts, st.sleptMs, own);
    if e.climate.fate(st.ops, GetObject(key)).Disconnected? && attempt < MAX_ATTEMPTS {
      var st2 := Sleep(st1, attempt);
      SleepFollows(e, st1, attempt, own);
      FollowsTrans(e, st, st1, st2, own);
      LoadFollows(e, st2, key, attempt + 1, own);
      FollowsTrans(e, st, st2, LoadRun(e, st2, key, attempt + 1).0, own);
    }
  }

  /** The only action of its own that a save takes is to land its own write. */
  lemma {:induction false} SaveFollows(e: Env, st: Session, write: Write, attempt: nat)
    requires 1 <= attempt <= MAX_ATTEMPTS
    ensures var st1 := SaveRun(e, st, write, attempt).0;
            Follows(e, st, st1) && Sourced(e, st, st1, {Land(write)})
    decreases MAX_ATTEMPTS - attempt
  {
    hide Follows;
    hide Sourced;
    hide RunAll;
    hide Step;
    hide Turn;
    hide Act;
    hide KeyOf;
    hide BodyOf;
    hide LoadRun;
    var own := {Land(write)};
    var key := KeyOf(e.w, write);
    var st1 := Turn(e, st).(puts := st.puts + 1);
    TurnFollows(e, st, st.gets, st.puts + 1, st.sleptMs, own);
    ActFollows(e, st1, Land(write), own);
    FollowsTrans(e, st, st1, Act(e, st1, Land(write)), own);
    match e.climate.fate(st.ops, PutObject(key))
    case Answered =>
      if key in st1.sys.store {
        LoadFollows(e, st1, key, 1, own);
        FollowsTrans(e, st, st1, LoadRun(e, st1, key, 1).0, own);
      }
    case Disconnected(applied) =>
      var st2 := Applied(e, st1, write, applied);
      if attempt < MAX_ATTEMPTS {
        var st3 := Sleep(st2, attempt);
        SleepFollows(e, st2, attempt, own);
        FollowsTrans(e, st, st2, st3, own);
        SaveFollows(e, st3, write, attempt + 1);
        FollowsTrans(e, st, st3, SaveRun(e, st3, write, attempt + 1).0, own);
      }
    case Failed(_) =>
  }

  // ----- what a load and a save mean -----

  /** A successful load reports the store as it is when the load returns. */
  lemma {:induction false} LoadMeaning(e: Env, st: Session, key: string, attempt: nat)
    requires 1 <= attempt <= MAX_ATTEMPTS
    ensures var (st1, r) := LoadRun(e, st, key, attempt); r.Ok? ==> r.value == Lookup(st1.sys.store, key)
    decreases MAX_ATTEMPTS - attempt
  {
    hide Turn;
    hide RunAll;
    if e.climate.fate(st.ops, GetObject(key)).Disconnected? && attempt < MAX_ATTEMPTS {
      LoadMeaning(e, Sleep(Turn(e, st).(gets := st.gets + 1), attempt), key, attempt + 1);
    }
  }

  predicate LostAt(climate: Climate, op: Op, n: nat) {
    climate.fate(n, op).Disconnected?
  }

  /** Only a lost connection is retried: every attempt but the last lost it, and the last decides. */
  ghost predicate LastAttempt(e: Env, start: nat, op: Op, retries: int, attempt: nat) {
    && 0 <= retries <= MAX_ATTEMPTS - attempt
    && (forall n: nat :: start <= n < start + retries ==> LostAt(e.climate, op, n))
    && (LostAt(e.climate, op, start + retries) ==> retries == MAX_ATTEMPTS - attempt)
  }

  lemma EarlierAttempt(e: Env, start: nat, op: Op, retries: int, attempt: nat)
    requires attempt < MAX_ATTEMPTS && LostAt(e.climate, op, start)
    requires LastAttempt(e, start + 1, op, retries, attempt + 1)
    ensures LastAttempt(e, start, op, retries + 1, attempt)
  {
    hide LostAt;
  }

  /** When a load retries, and that it succeeds exactly when its last attempt is answered. */
  lemma {:induction false} LoadAttempts(e: Env, st: Session, key: string, attempt: nat)
    requires 1 <= attempt <= MAX_ATTEMPTS
    ensures var (st1, r) := LoadRun(e, st, key, attempt); var retries := st1.gets - st.gets - 1;
            && LastAttempt(e, st.ops, GetObject(key), retries, attempt) && st1.ops == st.ops + retries + 1
            && (r.Ok? <==> e.climate.fate(st.ops + retries, GetObject(key)).Answered?)
    decreases MAX_ATTEMPTS - attempt
  {
    hide Turn;
    hide LoadRun;
    hide LastAttempt;
    LoadUnfold(e, st, key, attempt);
    if e.climate.fate(st.ops, GetObject(key)).Disconnected? && attempt < MAX_ATTEMPTS {
      var st1 := Sleep(Turn(e, st).(gets := st.gets + 1), attempt);
      LoadAttempts(e, st1, key, attempt + 1);
      EarlierAttempt(e, st.ops, GetObject(key), LoadRun(e, st1, key, attempt + 1).0.gets - st1.gets - 1, attempt);
    } else {
      FirstAttempt(e, st.ops, GetObject(key), attempt);
    }
  }

  /** The session in which the last put of a save is decided. */
  function LastPut(e: Env, st: Session, write: Write, attempt: nat): (put: Session)
    requires 1 <= attempt <= MAX_ATTEMPTS
    ensures put.ops > st.ops
    decreases MAX_ATTEMPTS - attempt
  {
    var fate := e.climate.fate(st.ops, PutObject(KeyOf(e.w, write)));
    var st1 := Turn(e, st).(puts := st.puts + 1);
    if fate.Disconnected? && attempt < MAX_ATTEMPTS
    then LastPut(e, Sleep(Applied(e, st1, write, fate.applied), attempt), write, attempt + 1) else st1
  }

  /** The outcome of a save by the fate of its last put and of its last get. */
  ghost predicate SaveEnds(e: Env, st: Session, put: Session, end: Session, r: Result<(), Error>, write: Write, attempt: nat) {
    var key, retries := KeyOf(e.w, write), end.puts - st.puts - 1;
    && LastAttempt(e, st.ops, PutObject(key), retries, attempt) && put.ops == st.ops + retries + 1 && put.ops <= end.ops
    && var answered := e.climate.fate(put.ops - 1, PutObject(key)).Answered?;
    && (end.gets > st.gets <==> answered && key in put.sys.store)
    && (r.Ok? <==>
          && answered
          && (key in put.sys.store ==>
                && e.climate.fate(end.ops - 1, GetObject(key)).Answered?
                && Lookup(end.sys.store, key) == Some(BodyOf(e.w, write))))
  }

  lemma AnsweredPutEnds(e: Env, st: Session, write: Write, attempt: nat)
    requires 1 <= attempt <= MAX_ATTEMPTS && e.climate.fate(st.ops, PutObject(KeyOf(e.w, write))).Answered?
    ensures var (end, r) := SaveRun(e, st, write, attempt);
            SaveEnds(e, st, LastPut(e, st, write, attempt), end, r, write, attempt)
  {
    hide Turn;
    hide Act;
    hide KeyOf;
    hide BodyOf;
    hide LoadRun;
    hide Backoff;
    hide LastAttempt;
    var key, st1 := KeyOf(e.w, write), Turn(e, st).(puts := st.puts + 1);
    FirstAttempt(e, st.ops, PutObject(key), attempt);
    if key in st1.sys.store {
      LoadBounds(e, st1, key, 1);
      LoadAttempts(e, st1, key, 1);
      LoadMeaning(e, st1, key, 1);
    }
  }

  lemma FailedPutEnds(e: Env, st: Session, write: Write, attempt: nat)
    requires 1 <= attempt <= MAX_ATTEMPTS
    requires var fate := e.climate.fate(st.ops, PutObject(KeyOf(e.w, write)));
             fate.Failed? || (fate.Disconnected? && attempt == MAX_ATTEMPTS)
    ensures var (end, r) := SaveRun(e, st, write, attempt);
            SaveEnds(e, st, LastPut(e, st, write, attempt), end, r, write, attempt)
  {
    hide Turn;
    hide Applied;
    hide KeyOf;
    hide BodyOf;
    hide LastAttempt;
    FirstAttempt(e, st.ops, PutObject(KeyOf(e.w, write)), attempt);
  }

  lemma RetriedPutEnds(e: Env, st: Session, st1: Session, put: Session, end: Session, r: Result<(), Error>, write: Write,
                       attempt: nat)
    requires attempt < MAX_ATTEMPTS && put.ops > st1.ops
    requires st1.ops == st.ops + 1 && st1.puts == st.puts + 1 && st1.gets == st.gets
    requires e.climate.fate(st.ops, PutObject(KeyOf(e.w, write))).Disconnected?
    requires SaveEnds(e, st1, put, end, r, write, attempt + 1)
    ensures SaveEnds(e, st, put, end, r, write, attempt)
  {
    hide KeyOf;
    hide BodyOf;
    hide LastAttempt;
    EarlierAttempt(e, st.ops, PutObject(KeyOf(e.w, write)), end.puts - st1.puts - 1, attempt);
  }

  /**
   * A save retries only lost connections, and succeeds exactly when its last put is answered and either the name was
   * free then, or the last get of the load that follows is answered and finds this body.
   */
  lemma {:induction false} SaveAttempts(e: Env, st: Session, write: Write, attempt: nat)
    requires 1 <= attempt <= MAX_ATTEMPTS
    ensures var (end, r) := SaveRun(e, st, write, attempt);
            SaveEnds(e, st, LastPut(e, st, write, attempt), end, r, write, attempt)
    decreases MAX_ATTEMPTS - attempt
  {
    hide Turn;
    hide Applied;
    hide KeyOf;
    hide BodyOf;
    hide LoadRun;
    hide SaveEnds;
    match e.climate.fate(st.ops, PutObject(KeyOf(e.w, write)))
    case Answered => AnsweredPutEnds(e, st, write, attempt);
    case Disconnected(applied) =>
      if attempt < MAX_ATTEMPTS {
        var st1 := Sleep(Applied(e, Turn(e, st).(puts := st.puts + 1), write, applied), attempt);
        SaveAttempts(e, st1, write, attempt + 1);
        var (end, r) := SaveRun(e, st1, write, attempt + 1);
        RetriedPutEnds(e, st, st1, LastPut(e, st1, write, attempt + 1), end, r, write, attempt);
      } else {
        FailedPutEnds(e, st, write, attempt);
      }
    case Failed(_) => FailedPutEnds(e, st, write, attempt);
  }

  /** From whatever moment on, at most three connections are lost in a row before an answer. */
  ghost predicate Recovering(climate: Climate, op: Op) {
    forall n: nat :: AnsweredSoon(climate, op, n)
  }

  ghost predicate AnsweredSoon(climate: Climate, op: Op, n: nat) {
    exists m: nat :: n <= m < n + MAX_ATTEMPTS && FirstAnswer(climate, op, n, m)
  }

  ghost predicate FirstAnswer(climate: Climate, op: Op, n: nat, m: nat) {
    climate.fate(m, op).Answered? && forall i: nat :: n <= i < m ==> LostAt(climate, op, i)
  }

  lemma LastIsAnswered(e: Env, start: nat, op: Op, retries: nat)
    requires Recovering(e.climate, op) && LastAttempt(e, start, op, retries, 1)
    ensures e.climate.fate(start + retries, op).Answered?
  {
    assert AnsweredSoon(e.climate, op, start);
    var m: nat :| start <= m < start + MAX_ATTEMPTS && FirstAnswer(e.climate, op, start, m);
    var last: nat := start + retries;
    assert last < m ==> LostAt(e.climate, op, last);
    assert m < last ==> LostAt(e.climate, op, m);
  }

  /** When connections recover, a load succeeds. */
  lemma RecoveringLoad(e: Env, st: Session, key: string)
    requires Recovering(e.climate, GetObject(key))
    ensures var (end, r) := LoadRun(e, st, key, 1); r == Ok(Lookup(end.sys.store, key))
  {
    hide LoadRun;
    hide Recovering;
    hide LastAttempt;
    LoadAttempts(e, st, key, 1);
    LoadMeaning(e, st, key, 1);
    LoadBounds(e, st, key, 1);
    LastIsAnswered(e, st.ops, GetObject(key), LoadRun(e, st, key, 1).0.gets - st.gets - 1);
  }

  lemma ApplyGrows(e: Env, st: Session, write: Write, applied: bool)
    ensures var later := Applied(e, Turn(e, st).(puts := st.puts + 1), write, applied);
            Extends(st.sys.store, later.sys.store) && st.sys.inFlight <= later.sys.inFlight
  {
    hide Turn;
    hide Step;
    hide RunAll;
    var st1 := Turn(e, st).(puts := st.puts + 1);
    TurnFollows(e, st, st.gets, st.puts + 1, st.sleptMs, {});
    ContinuationGrows(e, st, st1);
    StepExtends(e.w, st1.sys, Land(write));
  }

  lemma {:induction false} AnsweredSave(e: Env, st: Session, write: Write, attempt: nat)
    requires 1 <= attempt <= MAX_ATTEMPTS && write in st.sys.inFlight
    requires Recovering(e.climate, GetObject(KeyOf(e.w, write)))
    requires e.climate.fate(LastPut(e, st, write, attempt).ops - 1, PutObject(KeyOf(e.w, write))).Answered?
    ensures var (end, r) := SaveRun(e, st, write, attempt);
            KeyOf(e.w, write) in end.sys.store && (r.Ok? <==> Stored(e.w, end.sys.store, write))
    decreases MAX_ATTEMPTS - attempt
  {
    hide Turn;
    hide Step;
    hide KeyOf;
    hide BodyOf;
    hide LoadRun;
    hide Recovering;
    var key := KeyOf(e.w, write);
    var st1 := Turn(e, st).(puts := st.puts + 1);
    ApplyGrows(e, st, write, false);
    match e.climate.fate(st.ops, PutObject(key))
    case Answered =>
      if key !in st1.sys.store {
        LandOutcome(e.w, st1.sys, write);
      } else {
        RecoveringLoad(e, st1, key);
        LoadFollows(e, st1, key, 1, {});
        ContinuationGrows(e, st1, LoadRun(e, st1, key, 1).0);
      }
    case Disconnected(applied) =>
      ApplyGrows(e, st, write, applied);
      AnsweredSave(e, Sleep(Applied(e, st1, write, applied), attempt), write, attempt + 1);
    case Failed(_) => assert false;
  }

  /** When connections recover, a save succeeds exactly if its body is what the key holds in the end. */
  lemma RecoveringSave(e: Env, st: Session, write: Write)
    requires Recovering(e.climate, PutObject(KeyOf(e.w, write))) && Recovering(e.climate, GetObject(KeyOf(e.w, write)))
    requires write in st.sys.inFlight
    ensures var (end, r) := SaveRun(e, st, write, 1);
            KeyOf(e.w, write) in end.sys.store && (r.Ok? <==> Stored(e.w, end.sys.store, write))
  {
    hide SaveRun;
    hide LastPut;
    hide LastAttempt;
    hide Recovering;
    hide KeyOf;
    hide BodyOf;
    SaveAttempts(e, st, write, 1);
    SaveCosts(e, st, write, 1);
    LastIsAnswered(e, st.ops, PutObject(KeyOf(e.w, write)), SaveRun(e, st, write, 1).0.puts - st.puts - 1);
    AnsweredSave(e, st, write, 1);
  }

  /** The retry after a put that was applied while its answer was lost succeeds. */
  lemma LostAnswerIsRepeated(e: Env, st: Session, write: Write)
    requires Recovering(e.climate, PutObject(KeyOf(e.w, write))) && Recovering(e.climate, GetObject(KeyOf(e.w, write)))
    requires write in st.sys.inFlight && KeyOf(e.w, write) !in Turn(e, st).sys.store
    requires e.climate.fate(st.ops, PutObject(KeyOf(e.w, write))) == Disconnected(true)
    ensures SaveRun(e, st, write, 1).1.Ok?
  {
    hide Turn;
    hide Recovering;
    hide KeyOf;
    hide BodyOf;
    hide SaveOutcome;
    var st1 := Turn(e, st).(puts := st.puts + 1);
    var st2 := Sleep(Applied(e, st1, write, true), 1);
    ApplyGrows(e, st, write, false);
    ApplyGrows(e, st, write, true);
    assert Stored(e.w, st2.sys.store, write);
    RecoveringSave(e, st, write);
    SaveFollows(e, st2, write, 2);
    ContinuationGrows(e, st2, SaveRun(e, st2, write, 2).0);
  }

  lemma FirstAttempt(e: Env, start: nat, op: Op, attempt: nat)
    requires attempt <= MAX_ATTEMPTS && (LostAt(e.climate, op, start) ==> attempt == MAX_ATTEMPTS)
    ensures LastAttempt(e, start, op, 0, attempt)
  {
  }

  /** Total sleep of a loop that makes the given number of attempts: 250 ms, 500 ms, ... between them. */
  function Backoff(attempts: int): nat {
    if attempts <= 1 then 0 else Backoff(attempts - 1) + 250 * (attempts - 1)
  }

  lemma {:induction false} BackoffClosedForm(attempts: nat)
    requires attempts >= 1
    ensures 2 * Backoff(attempts) == 250 * attempts * (attempts - 1)
  {
    if attempts > 1 {
      BackoffClosedForm(attempts - 1);
      assert 250 * attempts * (attempts - 1) == 250 * (attempts - 1) * (attempts - 2) + 500 * (attempts - 1);
    }
  }

  lemma BackoffValues()
    ensures Backoff(0) == 0 && Backoff(1) == 0 && Backoff(2) == 250 && Backoff(3) == 750 && Backoff(4) == 1500
  {
    assert Backoff(2) == Backoff(1) + 250;
    assert Backoff(3) == Backoff(2) + 500;
  }

  /** Gets and sleep of a load that starts at the given attempt: the backoff is exactly that of its attempts. */
  lemma {:induction false} LoadBounds(e: Env, st: Session, key: string, attempt: nat)
    requires 1 <= attempt <= MAX_ATTEMPTS
    ensures var st1 := LoadRun(e, st, key, attempt).0;
            && 1 <= st1.gets - st.gets <= MAX_ATTEMPTS + 1 - attempt && st1.puts == st.puts
            && st1.sleptMs - st.sleptMs == Backoff(attempt + (st1.gets - st.gets) - 1) - Backoff(attempt)
    decreases MAX_ATTEMPTS - attempt
  {
    hide Turn;
    if e.climate.fate(st.ops, GetObject(key)).Disconnected? && attempt < MAX_ATTEMPTS {
      LoadBounds(e, Sleep(Turn(e, st).(gets := st.gets + 1), attempt), key, attempt + 1);
    }
  }

  /** Puts, gets and sleep of a save: those of its put attempts, plus those of the one load after a 412, if any. */
  lemma {:induction false} SaveCosts(e: Env, st: Session, write: Write, attempt: nat)
    requires 1 <= attempt <= MAX_ATTEMPTS
    ensures var st1 := SaveRun(e, st, write, attempt).0;
            && 1 <= st1.puts - st.puts <= MAX_ATTEMPTS + 1 - attempt
            && 0 <= st1.gets - st.gets <= MAX_ATTEMPTS
            && st1.sleptMs - st.sleptMs
               == Backoff(attempt + (st1.puts - st.puts) - 1) - Backoff(attempt) + Backoff(st1.gets - st.gets)
    decreases MAX_ATTEMPTS - attempt
  {
    hide Turn;
    hide Act;
    hide Applied;
    hide KeyOf;
    hide BodyOf;
    hide LoadRun;
    hide SaveRun;
    hide Backoff;
    BackoffValues();
    SaveUnfold(e, st, write, attempt);
    var key := KeyOf(e.w, write);
    var st1 := Turn(e, st).(puts := st.puts + 1);
    match e.climate.fate(st.ops, PutObject(key))
    case Answered => LoadBounds(e, st1, key, 1);
    case Disconnected(applied) =>
      if attempt < MAX_ATTEMPTS {
        SaveCosts(e, Sleep(Applied(e, st1, write, applied), attempt), write, attempt + 1);
      }
    case Failed(_) =>
  }

  lemma BackoffMonotone(n: nat)
    requires n <= 4
    ensures Backoff(n) <= 1500
  {
    BackoffValues();
  }

  /** At most four gets and 1500 ms for a load; at most four puts, four gets and 3000 ms for a save. */
  lemma OperationBounds(e: Env, st: Session, key: string, write: Write)
    ensures var loaded := LoadRun(e, st, key, 1).0;
            1 <= loaded.gets - st.gets <= 4 && loaded.puts == st.puts && loaded.sleptMs - st.sleptMs <= 1500
    ensures var saved := SaveRun(e, st, write, 1).0;
            && 1 <= saved.puts - st.puts <= 4 && 0 <= saved.gets - st.gets <= 4
            && saved.sleptMs - st.sleptMs <= 3000
  {
    hide LoadRun;
    hide SaveRun;
    LoadBounds(e, st, key, 1);
    SaveCosts(e, st, write, 1);
    var loaded, saved := LoadRun(e, st, key, 1).0, SaveRun(e, st, write, 1).0;
    BackoffMonotone(loaded.gets - st.gets);
    BackoffMonotone(saved.gets - st.gets);
    BackoffMonotone(saved.puts - st.puts);
  }

  lemma {:induction false} LoadError(e: Env, st: Session, key: string, attempt: nat)
    requires 1 <= attempt <= MAX_ATTEMPTS
    ensures var r := LoadRun(e, st, key, attempt).1; r.Err? ==> r.error == Transport
    decreases MAX_ATTEMPTS - attempt
  {
    hide Turn;
    hide RunAll;
    if e.climate.fate(st.ops, GetObject(key)).Disconnected? && attempt < MAX_ATTEMPTS {
      LoadError(e, Sleep(Turn(e, st).(gets := st.gets + 1), attempt), key, attempt + 1);
    }
  }

  /**
   * One atomic "insert if absent, or confirm equal": success means the key holds exactly this body; a conflict means
   * it holds something else; what was there before is still there; different content beforehand is never accepted.
   */
  ghost predicate SaveOutcome(w: World, before: Store, after: Store, write: Write, r: Result<(), Error>) {
    && Extends(before, after)
    && (r.Ok? ==> Stored(w, after, write))
    && (r == Err(Conflict) ==> KeyOf(w, write) in after && !Stored(w, after, write))
    && (KeyOf(w, write) in before && !Stored(w, before, write) ==> r.Err?)
    && (r.Err? ==> r.error == Conflict || r.error == Transport)
  }

  lemma OutcomeFromLater(w: World, first: Store, before: Store, after: Store, write: Write, r: Result<(), Error>)
    requires Extends(first, before) && SaveOutcome(w, before, after, write, r)
    ensures SaveOutcome(w, first, after, write, r)
  {
    hide KeyOf;
    hide BodyOf;
  }

  lemma LandOutcome(w: World, s: System, write: Write)
    requires write in s.inFlight && KeyOf(w, write) !in s.store
    ensures SaveOutcome(w, s.store, Step(w, s, Land(write)).store, write, Ok(()))
  {
    hide KeyOf;
    hide BodyOf;
  }

  lemma CompareOutcome(w: World, before: Store, after: Store, write: Write, existing: Result<Option<Bytes>, Error>)
    requires Extends(before, after) && KeyOf(w, write) in before
    requires match existing case Ok(found) => found == Lookup(after, KeyOf(w, write)) case Err(e) => e == Transport
    ensures SaveOutcome(w, before, after, write, CompareExisting(existing, BodyOf(w, write)))
  {
    hide KeyOf;
    hide BodyOf;
  }

  lemma ContinuationGrows(e: Env, earlier: Session, later: Session)
    requires Follows(e, earlier, later)
    ensures Extends(earlier.sys.store, later.sys.store) && earlier.sys.inFlight <= later.sys.inFlight
  {
    RunExtends(e.w, earlier.sys, later.trace[|earlier.trace|..]);
  }

  /** The retry loop refines the atomic operation, under any interference and any pattern of lost answers. */
  lemma {:induction false} SaveMeaning(e: Env, st: Session, write: Write, attempt: nat)
    requires 1 <= attempt <= MAX_ATTEMPTS && write in st.sys.inFlight
    ensures var (st1, r) := SaveRun(e, st, write, attempt);
            SaveOutcome(e.w, st.sys.store, st1.sys.store, write, r)
    decreases MAX_ATTEMPTS - attempt
  {
    hide Turn;
    hide KeyOf;
    hide BodyOf;
    hide LoadRun;
    hide Follows;
    hide Sourced;
    hide Step;
    hide SaveOutcome;
    hide CompareExisting;
    var key := KeyOf(e.w, write);
    var st1 := Turn(e, st).(puts := st.puts + 1);
    TurnFollows(e, st, st.gets, st.puts + 1, st.sleptMs, {});
    ContinuationGrows(e, st, st1);
    var (end, r) := SaveRun(e, st, write, attempt);
    match e.climate.fate(st.ops, PutObject(key))
    case Answered =>
      if key !in st1.sys.store {
        LandOutcome(e.w, st1.sys, write);
      } else {
        var (st2, existing) := LoadRun(e, st1, key, 1);
        LoadMeaning(e, st1, key, 1);
        LoadError(e, st1, key, 1);
        LoadFollows(e, st1, key, 1, {});
        ContinuationGrows(e, st1, st2);
        CompareOutcome(e.w, st1.sys.store, st2.sys.store, write, existing);
      }
      OutcomeFromLater(e.w, st.sys.store, st1.sys.store, end.sys.store, write, r);
    case Disconnected(applied) =>
      var st2 := Applied(e, st1, write, applied);
      StepExtends(e.w, st1.sys, Land(write));
      if attempt < MAX_ATTEMPTS {
        SaveMeaning(e, Sleep(st2, attempt), write, attempt + 1);
        OutcomeFromLater(e.w, st.sys.store, st2.sys.store, end.sys.store, write, r);
      } else {
        FailureOutcome(e.w, st.sys.store, st2.sys.store, write);
      }
    case Failed(applied) =>
      StepExtends(e.w, st1.sys, Land(write));
      FailureOutcome(e.w, st.sys.store, Applied(e, st1, write, applied).sys.store, write);
  }

  lemma FailureOutcome(w: World, before: Store, after: Store, write: Write)
    requires Extends(before, after)
    ensures SaveOutcome(w, before, after, write, Err(Transport))
  {
  }

  lemma StepLands(w: World, s: System, a: Action, key: string)
    requires key !in s.store && key in Step(w, s, a).store
    ensures a.Land? && KeyOf(w, a.write) == key && BodyOf(w, a.write) == Step(w, s, a).store[key]
  {
    hide KeyOf;
    hide BodyOf;
    hide BuildPackage;
    hide AfterTry;
    hide RestoreFromPackage;
    hide VerifySha256;
  }

  /** Whatever a run adds to the store was put there by the landing of exactly that write. */
  lemma {:induction false} NewObjectsLanded(w: World, s: System, actions: seq<Action>, key: string)
    requires key !in s.store && key in RunAll(w, s, actions).store
    ensures exists i :: && 0 <= i < |actions| && actions[i].Land?
                        && KeyOf(w, actions[i].write) == key
                        && BodyOf(w, actions[i].write) == RunAll(w, s, actions).store[key]
    decreases |actions|
  {
    hide Step;
    hide KeyOf;
    hide BodyOf;
    var t := Step(w, s, actions[0]);
    RunExtends(w, t, actions[1..]);
    if key !in t.store {
      NewObjectsLanded(w, t, actions[1..], key);
      var i :| 0 <= i < |actions[1..]| && actions[1..][i].Land? && KeyOf(w, actions[1..][i].write) == key
               && BodyOf(w, actions[1..][i].write) == RunAll(w, s, actions).store[key];
      assert actions[i + 1].Land?;
    } else {
      StepLands(w, s, actions[0], key);
    }
  }

  /**
   * The frame of a save, successful or not: an object that appears during the call is either exactly the one this
   * call writes, or one that somebody else's action landed.
   */
  lemma SaveFrame(e: Env, st: Session, write: Write, key: string)
    requires var st1 := SaveRun(e, st, write, 1).0; key !in st.sys.store && key in st1.sys.store
    ensures var st1 := SaveRun(e, st, write, 1).0;
            || (key == KeyOf(e.w, write) && st1.sys.store[key] == BodyOf(e.w, write))
            || exists n: nat, other: Write ::
                 && st.ops <= n < st1.ops && Land(other) in e.climate.others(n)
                 && KeyOf(e.w, other) == key && BodyOf(e.w, other) == st1.sys.store[key]
  {
    var st1 := SaveRun(e, st, write, 1).0;
    SaveFollows(e, st, write, 1);
    var actions := st1.trace[|st.trace|..];
    NewObjectsLanded(e.w, st.sys, actions, key);
    var i :| 0 <= i < |actions| && actions[i].Land? && KeyOf(e.w, actions[i].write) == key
             && BodyOf(e.w, actions[i].write) == st1.sys.store[key];
    var a := st1.trace[|st.trace| + i];
    assert a == actions[i] && a == Land(a.write);
    assert a in {Land(write)} || FromOthers(e, st.ops, st1.ops, a);
  }

  // ----- four attempts -----

  /** The first `lost` attempts of the operation, from this moment on, lose their connection. */
  ghost predicate LostFrom(climate: Climate, op: Op, start: nat, lost: nat) {
    forall n: nat :: start <= n < start + lost ==> LostAt(climate, op, n)
  }

  /** After `lost` lost connections, the attempt at `start + lost` is the last of the call. */
  lemma LastAfterLost(e: Env, start: nat, op: Op, lost: nat, retries: int)
    requires lost <= 3 && LostFrom(e.climate, op, start, lost)
    requires e.climate.fate(start + lost, op).Disconnected? ==> lost == 3
    requires LastAttempt(e, start, op, retries, 1)
    ensures retries == lost
  {
    var end: nat := start + lost;
    assert LostAt(e.climate, op, end) <==> e.climate.fate(end, op).Disconnected?;
  }

  /**
   * A load tolerates exactly three lost connections: with at most three lost gets in front, an answered one yields the
   * object, a failed one the error, each at once; four lost gets are an error after exactly four.
   */
  lemma LoadToleratesThree(e: Env, st: Session, key: string, lost: nat)
    requires lost <= 3 && LostFrom(e.climate, GetObject(key), st.ops, lost)
    requires e.climate.fate(st.ops + lost, GetObject(key)).Disconnected? ==> lost == 3
    ensures var (end, r) := LoadRun(e, st, key, 1);
            && end.gets == st.gets + lost + 1
            && r == if e.climate.fate(st.ops + lost, GetObject(key)).Answered? then Ok(Lookup(end.sys.store, key))
                    else Err(Transport)
  {
    hide LoadRun;
    hide LastAttempt;
    hide LostFrom;
    LoadAttempts(e, st, key, 1);
    LoadMeaning(e, st, key, 1);
    LoadError(e, st, key, 1);
    LastAfterLost(e, st.ops, GetObject(key), lost, LoadRun(e, st, key, 1).0.gets - st.gets - 1);
  }

  /**
   * A save tolerates exactly three lost connections: with at most three lost puts in front, an answered one decides,
   * successfully if the name is free, a failed one is an error, each at once; four lost puts are an error after exactly
   * four.
   */
  lemma SaveToleratesThree(e: Env, st: Session, write: Write, lost: nat)
    requires write in st.sys.inFlight && lost <= 3 && LostFrom(e.climate, PutObject(KeyOf(e.w, write)), st.ops, lost)
    requires e.climate.fate(st.ops + lost, PutObject(KeyOf(e.w, write))).Disconnected? ==> lost == 3
    ensures var (end, r) := SaveRun(e, st, write, 1); var put := LastPut(e, st, write, 1);
            var answered := e.climate.fate(st.ops + lost, PutObject(KeyOf(e.w, write))).Answered?;
            && end.puts == st.puts + lost + 1 && put.ops == st.ops + lost + 1
            && (!answered ==> r.Err?)
            && (answered && KeyOf(e.w, write) !in put.sys.store ==> r.Ok?)
            && (answered && Recovering(e.climate, GetObject(KeyOf(e.w, write))) ==>
                  (r.Ok? <==> Stored(e.w, end.sys.store, write)))
  {
    hide SaveRun;
    hide LastPut;
    hide LastAttempt;
    hide LostFrom;
    hide Recovering;
    hide KeyOf;
    hide BodyOf;
    SaveAttempts(e, st, write, 1);
    var end := SaveRun(e, st, write, 1).0;
    LastAfterLost(e, st.ops, PutObject(KeyOf(e.w, write)), lost, end.puts - st.puts - 1);
    if e.climate.fate(st.ops + lost, PutObject(KeyOf(e.w, write))).Answered?
       && Recovering(e.climate, GetObject(KeyOf(e.w, write))) {
      AnsweredSave(e, st, write, 1);
    }
  }

  // ----- the origin of a write does not matter -----

  /** The later system has the same store and processes, and at most one more write in flight. */
  ghost predicate Alike(s: System, t: System, extra: Write) {
    t.store == s.store && t.processes == s.processes && t.inFlight == s.inFlight + {extra}
  }

  /** The write is in flight already, or nobody else lands it. */
  ghost predicate UsedHere(e: Env, st: Session, extra: Write) {
    extra in st.sys.inFlight || forall n: nat :: Land(extra) !in e.climate.others(n)
  }

  lemma StepAlike(w: World, s: System, t: System, a: Action, extra: Write)
    requires Alike(s, t, extra) && (a == Land(extra) ==> extra in s.inFlight)
    ensures Alike(Step(w, s, a), Step(w, t, a), extra)
  {
    hide KeyOf;
    hide BodyOf;
    hide BuildPackage;
    hide AfterTry;
    hide RestoreFromPackage;
    hide VerifySha256;
    hide ManifestKey;
    hide ValidateConfiguration;
  }

  lemma {:induction false} RunAlike(w: World, s: System, t: System, actions: seq<Action>, extra: Write)
    requires Alike(s, t, extra) && (Land(extra) in actions ==> extra in s.inFlight)
    ensures Alike(RunAll(w, s, actions), RunAll(w, t, actions), extra)
    decreases |actions|
  {
    hide Step;
    hide Alike;
    if actions != [] {
      StepAlike(w, s, t, actions[0], extra);
      StepExtends(w, s, actions[0]);
      RunAlike(w, Step(w, s, actions[0]), Step(w, t, actions[0]), actions[1..], extra);
    }
  }

  ghost predicate SessionsAlike(e: Env, a: Session, b: Session, extra: Write) {
    && Alike(a.sys, b.sys, extra) && UsedHere(e, a, extra)
    && b.ops == a.ops && b.gets == a.gets && b.puts == a.puts && b.sleptMs == a.sleptMs
  }

  lemma TurnAlike(e: Env, a: Session, b: Session, extra: Write)
    requires SessionsAlike(e, a, b, extra)
    ensures SessionsAlike(e, Turn(e, a), Turn(e, b), extra) && a.sys.inFlight <= Turn(e, a).sys.inFlight
  {
    hide Alike;
    var actions := OthersOnly(e.me, e.climate.others(a.ops));
    RunExtends(e.w, a.sys, actions);
    RunAlike(e.w, a.sys, b.sys, actions, extra);
  }

  lemma LandAlike(e: Env, a: Session, b: Session, write: Write, extra: Write)
    requires SessionsAlike(e, a, b, extra) && write in a.sys.inFlight
    requires KeyOf(e.w, extra) == KeyOf(e.w, write) && BodyOf(e.w, extra) == BodyOf(e.w, write)
    ensures SessionsAlike(e, Act(e, a, Land(write)), Act(e, b, Land(extra)), extra)
    ensures a.sys.inFlight == Act(e, a, Land(write)).sys.inFlight
  {
    hide KeyOf;
    hide BodyOf;
  }

  lemma {:induction false} LoadAlike(e: Env, a: Session, b: Session, key: string, attempt: nat, extra: Write)
    requires 1 <= attempt <= MAX_ATTEMPTS && SessionsAlike(e, a, b, extra)
    ensures SessionsAlike(e, LoadRun(e, a, key, attempt).0, LoadRun(e, b, key, attempt).0, extra)
    ensures LoadRun(e, a, key, attempt).1 == LoadRun(e, b, key, attempt).1
    decreases MAX_ATTEMPTS - attempt
  {
    hide Turn;
    hide LoadRun;
    LoadUnfold(e, a, key, attempt);
    LoadUnfold(e, b, key, attempt);
    TurnAlike(e, a, b, extra);
    if e.climate.fate(a.ops, GetObject(key)).Disconnected? && attempt < MAX_ATTEMPTS {
      LoadAlike(e, Sleep(Turn(e, a).(gets := a.gets + 1), attempt), Sleep(Turn(e, b).(gets := b.gets + 1), attempt), key,
                attempt + 1, extra);
    }
  }

  lemma {:induction false} SameSave(e: Env, a: Session, b: Session, write: Write, extra: Write, attempt: nat)
    requires 1 <= attempt <= MAX_ATTEMPTS && SessionsAlike(e, a, b, extra) && write in a.sys.inFlight
    requires KeyOf(e.w, extra) == KeyOf(e.w, write) && BodyOf(e.w, extra) == BodyOf(e.w, write)
    ensures SessionsAlike(e, SaveRun(e, a, write, attempt).0, SaveRun(e, b, extra, attempt).0, extra)
    ensures SaveRun(e, a, write, attempt).1 == SaveRun(e, b, extra, attempt).1
    decreases MAX_ATTEMPTS - attempt
  {
    hide Turn;
    hide Act;
    hide LoadRun;
    hide SaveRun;
    hide KeyOf;
    hide BodyOf;
    var key := KeyOf(e.w, write);
    SaveUnfold(e, a, write, attempt);
    SaveUnfold(e, b, extra, attempt);
    TurnAlike(e, a, b, extra);
    var a1, b1 := Turn(e, a).(puts := a.puts + 1), Turn(e, b).(puts := b.puts + 1);
    LandAlike(e, a1, b1, write, extra);
    match e.climate.fate(a.ops, PutObject(key))
    case Answered =>
      if key in a1.sys.store {
        LoadAlike(e, a1, b1, key, 1, extra);
      }
    case Disconnected(applied) =>
      if attempt < MAX_ATTEMPTS {
        SameSave(e, Sleep(Applied(e, a1, write, applied), attempt), Sleep(Applied(e, b1, extra, applied), attempt), write,
                 extra, attempt + 1);
      }
    case Failed(_) =>
  }

  // ----- calm weather -----

  /** Nobody else acts and every operation is answered. */
  ghost predicate Calm(climate: Climate) {
    (forall n :: climate.others(n) == []) && (forall n, op :: climate.fate(n, op) == Answered)
  }

  lemma CalmTurn(e: Env, st: Session)
    requires Calm(e.climate)
    ensures Turn(e, st) == st.(ops := st.ops + 1)
  {
    assert OthersOnly(e.me, e.climate.others(st.ops)) == [];
    assert st.trace + [] == st.trace;
  }

  lemma CalmLoad(e: Env, st: Session, key: string)
    requires Calm(e.climate)
    ensures LoadRun(e, st, key, 1)
            == (st.(ops := st.ops + 1, gets := st.gets + 1), Ok(Lookup(st.sys.store, key)))
  {
    hide Turn;
    CalmTurn(e, st);
  }

  /** Without interference the save is the atomic operation itself, and succeeds unless other content is in the way. */
  lemma CalmSave(e: Env, st: Session, write: Write)
    requires Calm(e.climate) && write in st.sys.inFlight
    ensures var (st1, r) := SaveRun(e, st, write, 1);
            && st1.sys == LandIn(e.w, st.sys, write)
            && st1.sys.store == InsertIfAbsent(st.sys.store, KeyOf(e.w, write), BodyOf(e.w, write))
            && (r.Ok? <==> KeyOf(e.w, write) !in st.sys.store || Stored(e.w, st.sys.store, write))
  {
    hide Turn;
    hide LoadRun;
    hide KeyOf;
    hide BodyOf;
    CalmTurn(e, st);
    CalmLoad(e, Turn(e, st).(puts := st.puts + 1), KeyOf(e.w, write));
  }

  // ----- the loops -----

  lemma LoadUnfold(e: Env, st: Session, key: string, attempt: nat)
    requires 1 <= attempt <= MAX_ATTEMPTS
    ensures var fate, st1 := e.climate.fate(st.ops, GetObject(key)), Turn(e, st).(gets := st.gets + 1);
            LoadRun(e, st, key, attempt)
            == if fate.Answered? then (st1, Ok(Lookup(st1.sys.store, key)))
               else if fate.Disconnected? && attempt < MAX_ATTEMPTS then LoadRun(e, Sleep(st1, attempt), key, attempt + 1)
               else (st1, Err(Transport))
  {
    hide Turn;
  }

  lemma SaveUnfold(e: Env, st: Session, write: Write, attempt: nat)
    requires 1 <= attempt <= MAX_ATTEMPTS
    ensures var key := KeyOf(e.w, write);
            var fate, st1 := e.climate.fate(st.ops, PutObject(key)), Turn(e, st).(puts := st.puts + 1);
            SaveRun(e, st, write, attempt)
            == match fate
               case Answered =>
                 if key !in st1.sys.store then (Act(e, st1, Land(write)), Ok(()))
                 else (LoadRun(e, st1, key, 1).0, CompareExisting(LoadRun(e, st1, key, 1).1, BodyOf(e.w, write)))
               case Disconnected(applied) =>
                 var st2 := Applied(e, st1, write, applied);
                 if attempt < MAX_ATTEMPTS then SaveRun(e, Sleep(st2, attempt), write, attempt + 1)
                 else (st2, Err(Transport))
               case Failed(applied) => (Applied(e, st1, write, applied), Err(Transport))
  {
    hide Applied;
    hide Turn;
    hide Act;
    hide KeyOf;
    hide BodyOf;
    hide LoadRun;
  }

  /** All that a load guarantees. */
  ghost predicate LoadKept(e: Env, st: Session, end: Session, key: string, r: Result<Option<Bytes>, Error>) {
    && (r.Ok? ==> r.value == Lookup(end.sys.store, key)) && Follows(e, st, end) && Sourced(e, st, end, {})
    && 1 <= end.gets - st.gets <= 4 && end.puts == st.puts && end.sleptMs - st.sleptMs <= 1500
  }

  lemma LoadKeeps(e: Env, st: Session, key: string)
    ensures var (end, r) := LoadRun(e, st, key, 1); LoadKept(e, st, end, key, r)
  {
    hide LoadRun;
    hide SaveRun;
    hide Follows;
    hide Sourced;
    LoadMeaning(e, st, key, 1);
    LoadFollows(e, st, key, 1, {});
    OperationBounds(e, st, key, Foreign(key, []));
  }

  /** All that a save guarantees. */
  ghost predicate SaveKept(e: Env, st: Session, end: Session, write: Write, r: Result<(), Error>) {
    && (r.Ok? ==> Stored(e.w, end.sys.store, write)) && SaveOutcome(e.w, st.sys.store, end.sys.store, write, r)
    && Follows(e, st, end) && Sourced(e, st, end, {Land(write)})
    && 1 <= end.puts - st.puts <= 4 && end.gets - st.gets <= 4 && end.sleptMs - st.sleptMs <= 3000
  }

  lemma SaveKeeps(e: Env, st: Session, write: Write)
    requires write in st.sys.inFlight
    ensures var (end, r) := SaveRun(e, st, write, 1); SaveKept(e, st, end, write, r)
  {
    hide LoadRun;
    hide SaveRun;
    hide Follows;
    hide Sourced;
    hide KeyOf;
    hide BodyOf;
    SaveMeaning(e, st, write, 1);
    SaveFollows(e, st, write, 1);
    OperationBounds(e, st, "", write);
  }

  /** The broker's S3 client. */
  class S3Client {
    const env: Env
    var sys: System
    var trace: seq<Action>
    var ops: nat
    var gets: nat
    var puts: nat
    var sleptMs: nat

    constructor (env: Env, sys: System)
      ensures this.env == env && Now() == Session(sys, [], 0, 0, 0, 0)
    {
      this.env := env;
      this.sys := sys;
      trace := [];
      ops, gets, puts, sleptMs := 0, 0, 0, 0;
    }

    function Now(): Session
      reads this
    {
      Session(sys, trace, ops, gets, puts, sleptMs)
    }

    /** Lets the surroundings act before an operation. */
    method BeginOperation()
      modifies this
      ensures Now() == Turn(env, old(Now()))
    {
      var actions := OthersOnly(env.me, env.climate.others(ops));
      sys := RunAll(env.w, sys, actions);
      trace := trace + actions;
      ops := ops + 1;
    }

    /** One action of this program on the shared system. */
    method Perform(a: Action)
      modifies this
      ensures Now() == Act(env, old(Now()), a)
    {
      sys := Step(env.w, sys, a);
      trace := trace + [a];
    }

    method SleepBeforeRetry(attempt: nat)
      modifies this
      ensures Now() == Sleep(old(Now()), attempt)
    {
      sleptMs := sleptMs + 250 * attempt;
    }

    method LoadObject(key: string) returns (r: Result<Option<Bytes>, Error>)
      modifies this
      ensures (Now(), r) == LoadRun(env, old(Now()), key, 1)
      ensures r.Ok? ==> r.value == Lookup(sys.store, key)
      ensures Follows(env, old(Now()), Now()) && Sourced(env, old(Now()), Now(), {})
      ensures 1 <= gets - old(gets) <= 4 && puts == old(puts) && sleptMs - old(sleptMs) <= 1500
    {
      hide Turn;
      hide LoadRun;
      hide Follows;
      hide Sourced;
      ghost var start := Now();
      LoadKeeps(env, start, key);
      var attempt: nat := 1;
      while true
        invariant 1 <= attempt <= MAX_ATTEMPTS
        invariant LoadRun(env, start, key, 1) == LoadRun(env, Now(), key, attempt)
        decreases MAX_ATTEMPTS - attempt
      {
        LoadUnfold(env, Now(), key, attempt);
        var fate := env.climate.fate(ops, GetObject(key));
        BeginOperation();
        gets := gets + 1;
        if fate.Answered? {
          return Ok(Lookup(sys.store, key));
        } else if fate.Disconnected? && attempt < MAX_ATTEMPTS {
          SleepBeforeRetry(attempt);
          attempt := attempt + 1;
        } else {
          return Err(Transport);
        }
      }
    }

    method SaveIfAbsent(write: Write) returns (r: Result<(), Error>)
      requires write in sys.inFlight
      modifies this
      ensures (Now(), r) == SaveRun(env, old(Now()), write, 1)
      ensures r.Ok? ==> Stored(env.w, sys.store, write)
      ensures SaveOutcome(env.w, old(sys.store), sys.store, write, r)
      ensures Follows(env, old(Now()), Now()) && Sourced(env, old(Now()), Now(), {Land(write)})
      ensures 1 <= puts - old(puts) <= 4 && gets - old(gets) <= 4 && sleptMs - old(sleptMs) <= 3000
    {
      hide Turn;
      hide Act;
      hide Follows;
      hide Sourced;
      hide SaveOutcome;
      hide KeyOf;
      hide BodyOf;
      hide LoadRun;
      hide SaveRun;
      ghost var start := Now();
      SaveKeeps(env, start, write);
      var expectedBody := BodyOf(env.w, write);
      var key := KeyOf(env.w, write);
      var attempt: nat := 1;
      while true
        invariant 1 <= attempt <= MAX_ATTEMPTS
        invariant SaveRun(env, start, write, 1) == SaveRun(env, Now(), write, attempt)
        decreases MAX_ATTEMPTS - attempt
      {
        SaveUnfold(env, Now(), write, attempt);
        var fate := env.climate.fate(ops, PutObject(key));
        BeginOperation();
        puts := puts + 1;
        match fate
        case Answered =>
          if key !in sys.store {
            Perform(Land(write));
            return Ok(());
          }
          var existing := LoadObject(key);
          return CompareExisting(existing, expectedBody);
        case Disconnected(applied) =>
          if applied { Perform(Land(write)); }
          if attempt == MAX_ATTEMPTS {
            return Err(Transport);
          }
          SleepBeforeRetry(attempt);
          attempt := attempt + 1;
        case Failed(applied) =>
          if applied { Perform(Land(write)); }
          return Err(Transport);
      }
    }
  }
}
