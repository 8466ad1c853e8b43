/**
 * The lookup store's gates: three guards, a readers/transition gate and a publication gate. Threads
 * are programs over lock, wait and notify; the question is whether they can all get stuck.
 */
module StoreGates {
  import opened Wrappers

  /** The order in which guards nest. */
  datatype Guard = State | Database | Pack

  function Rank(g: Guard): nat {
    match g case State => 0 case Database => 1 case Pack => 2
  }

  /**
   * Steps of the store's methods. A check and the update right after it, made under one guard, are
   * one step; those that may wait do so on the condition of that guard.
   */
  datatype Instr =
    | Lock(guard: Guard)
    | Unlock(guard: Guard)
    | EnterLease          // wait while a transition runs and the store is open; count a reader in
    | LeaveLease          // count the reader out; the last one notifies
    | AwaitNoTransition   // the same wait, without becoming a reader
    | ClaimTransition     // wait for the previous transition; start one
    | AwaitNoReaders
    | EndTransition       // notifies
    | AwaitPublished      // wait while the database is being published
    | TakeConnection      // the same wait, then count a query in
    | ReturnConnection    // count the query out; the last one notifies
    | BeginPublishing
    | AwaitNoQueries
    | EndPublishing       // notifies
    | MarkClosed
    | Work                // anything that cannot block

  datatype Code = Done | Do(instr: Instr, rest: Code)

  /* ---- The methods. ---- */

  /**
   * The methods, by the path they take: `hit` for a cached response, `queried` for rows read through
   * a connection rather than from the row cache or memory, `pack` for an active pack.
   */
  datatype Method =
    | Lookup(hit: bool, queried: bool, pack: bool)
    | LookupUncached(queried: bool, pack: bool)
    | Rows(queried: bool)
    | BestAudioUrl(queried: bool, found: bool, pack: bool)
    | CandidatesPayload(queried: bool, pack: bool)
    | PathTarget(indexed: bool, known: bool, pack: bool)
    | LeasedPackedAudio(pack: bool)
    | StoreInfo
    | LookupFirst(hit: bool, queried: bool, pack: bool)
    | ReloadPack
    | PublishDatabase(allowed: bool, replaced: bool)
    | ReplaceSources
    | CloseStore

  function Leaving(): Code {
    Do(Lock(State), Do(LeaveLease, Do(Unlock(State), Done)))
  }

  function Releasing(rest: Code): Code {
    Do(Lock(Pack), Do(Work, Do(Unlock(Pack), rest)))
  }

  function Entering(rest: Code): Code {
    Do(Lock(State), Do(EnterLease, Do(Unlock(State), rest)))
  }

  /** The epoch is read under the database guard, after any publication. */
  function ReadingEpoch(rest: Code): Code {
    Do(Lock(Database), Do(AwaitPublished, Do(Unlock(Database), rest)))
  }

  function Querying(rest: Code): Code {
    Do(Lock(Database), Do(TakeConnection, Do(Unlock(Database), Do(Work,
    Do(Lock(Database), Do(ReturnConnection, Do(Unlock(Database), rest)))))))
  }

  function Fetching(queried: bool, rest: Code): Code {
    if queried then Querying(rest) else Do(Work, rest)
  }

  /** The end of a pack lease; without a pack there is none. */
  function EndingLease(pack: bool, rest: Code): Code {
    if pack then Releasing(rest) else rest
  }

  function Changing(rest: Code): Code {
    Do(Lock(State), Do(ClaimTransition, Do(AwaitNoReaders, Do(Unlock(State), rest))))
  }

  function Ending(): Code {
    Do(Lock(State), Do(EndTransition, Do(Unlock(State), Done)))
  }

  function Glance(rest: Code): Code {
    Do(Lock(Database), Do(Unlock(Database), rest))
  }

  /** Building the path index; the nested use of the database guard adds nothing to holding it. */
  function Indexing(rest: Code): Code {
    Do(Lock(Database), Do(TakeConnection, Do(Work, Do(ReturnConnection, Do(Unlock(Database), rest)))))
  }

  function PackedAudioCode(rest: Code): Code {
    Do(Lock(State), Do(AwaitNoTransition, Do(Lock(Pack), Do(Unlock(Pack), Do(Unlock(State), Do(Work, rest))))))
  }

  function Publication(body: Code): Code {
    Do(Lock(Database), Do(BeginPublishing, Do(AwaitNoQueries, Do(Work, body))))
  }

  function EndOfPublication(rest: Code): Code {
    Do(EndPublishing, Do(Unlock(Database), rest))
  }

  function Closing(rest: Code): Code {
    Do(Lock(State), Do(MarkClosed, Do(Unlock(State), rest)))
  }

  function Program(m: Method): Code {
    match m
    case Lookup(hit, queried, pack) =>
      Entering(Glance(Releasing(
        if hit then EndingLease(pack, Leaving())
        else ReadingEpoch(Fetching(queried, EndingLease(pack, Leaving()))))))
    case LookupUncached(queried, pack) =>
      Entering(Releasing(ReadingEpoch(Fetching(queried, EndingLease(pack, Leaving())))))
    case Rows(queried) => Entering(ReadingEpoch(Fetching(queried, Leaving())))
    case BestAudioUrl(queried, found, pack) =>
      Entering(ReadingEpoch(Fetching(queried,
        if found then Releasing(EndingLease(pack, Leaving())) else Leaving())))
    case CandidatesPayload(queried, pack) =>
      Entering(ReadingEpoch(Fetching(queried, Releasing(EndingLease(pack, Leaving())))))
    case PathTarget(indexed, known, pack) =>
      var found := if known then Releasing(EndingLease(pack, Leaving())) else Leaving();
      Entering(if indexed then Glance(found) else Indexing(found))
    case LeasedPackedAudio(pack) => PackedAudioCode(EndingLease(pack, Done))
    case StoreInfo => Entering(Glance(Releasing(Leaving())))
    // The pack snapshot is taken without saying that a state lease is already held.
    case LookupFirst(hit, queried, pack) => Entering(Glance(PackedAudioCode(FirstAnswer(hit, queried, pack))))
    case ReloadPack => Changing(Releasing(Ending()))
    // A cleanup in progress, or a failing replacement of the file, ends the publication early.
    case PublishDatabase(allowed, replaced) =>
      if !allowed then Changing(Ending())
      else Changing(Publication(
        if replaced then Releasing(EndOfPublication(Ending())) else EndOfPublication(Ending())))
    case ReplaceSources => Changing(Do(Work, Ending()))
    case CloseStore => Changing(Closing(Publication(EndOfPublication(Releasing(Ending())))))
  }

  function FirstAnswer(hit: bool, queried: bool, pack: bool): Code {
    if hit then EndingLease(pack, Leaving()) else Fetching(queried, EndingLease(pack, Leaving()))
  }

  /** The methods that run inside a transition. */
  predicate Changes(m: Method) {
    m.ReloadPack? || m.PublishDatabase? || m.ReplaceSources? || m.CloseStore?
  }

  /* ---- The store. ---- */

  /** `asleep` names the guard whose condition the thread waits on. */
  datatype Thread = Thread(code: Code, asleep: Option<Guard>)

  /** Readers, queries, the transition and the publication are kept by thread; the code keeps counts. */
  datatype Store = Store(
    threads: map<nat, Thread>, owners: map<Guard, nat>,
    readers: set<nat>, queries: set<nat>, transition: Option<nat>, publishing: Option<nat>, closed: bool)

  function Owned(s: Store, g: Guard): Option<nat> {
    if g in s.owners then Some(s.owners[g]) else None
  }

  /** `notify_all`: every waiter has to take the guard again before it re-checks its condition. */
  function Woken(t: Thread, g: Guard): Thread {
    if t.asleep == Some(g) then Thread(Do(Lock(g), t.code), None) else t
  }

  function Notify(s: Store, g: Guard): Store {
    s.(threads := map id | id in s.threads :: Woken(s.threads[id], g))
  }

  function Advance(s: Store, id: nat, code: Code): Store {
    s.(threads := s.threads[id := Thread(code, None)])
  }

  function Sleep(s: Store, id: nat, g: Guard): Store
    requires id in s.threads
  {
    s.(threads := s.threads[id := Thread(s.threads[id].code, Some(g))], owners := s.owners - {g})
  }

  predicate CanStep(s: Store, id: nat) {
    && id in s.threads && s.threads[id].asleep.None? && s.threads[id].code.Do?
    && (s.threads[id].code.instr.Lock? ==> s.threads[id].code.instr.guard !in s.owners)
  }

  /** One step of a thread that can take one. */
  function Perform(s: Store, id: nat): Store
    requires CanStep(s, id)
  {
    var rest := s.threads[id].code.rest;
    var next := Advance(s, id, rest);
    // A closed store turns callers away; the guard is released on the way out.
    var refused := Advance(s, id, Do(Unlock(State), Done));
    match s.threads[id].code.instr
    case Lock(g) => next.(owners := s.owners[g := id])
    case Unlock(g) => next.(owners := s.owners - {g})
    case EnterLease =>
      if s.transition.Some? && !s.closed then Sleep(s, id, State)
      else if s.closed then refused else next.(readers := s.readers + {id})
    case AwaitNoTransition =>
      if s.transition.Some? && !s.closed then Sleep(s, id, State)
      else if s.closed then refused else next
    case LeaveLease =>
      var left := next.(readers := s.readers - {id});
      if left.readers == {} then Notify(left, State) else left
    case ClaimTransition =>
      if s.transition.Some? then Sleep(s, id, State)
      else if s.closed then refused else next.(transition := Some(id))
    case AwaitNoReaders => if s.readers != {} then Sleep(s, id, State) else next
    case EndTransition => Notify(next.(transition := None), State)
    case AwaitPublished => if s.publishing.Some? then Sleep(s, id, Database) else next
    case TakeConnection =>
      if s.publishing.Some? then Sleep(s, id, Database) else next.(queries := s.queries + {id})
    case ReturnConnection =>
      var left := next.(queries := s.queries - {id});
      if left.queries == {} then Notify(left, Database) else left
    case BeginPublishing => next.(publishing := Some(id))
    case AwaitNoQueries => if s.queries != {} then Sleep(s, id, Database) else next
    case EndPublishing => Notify(next.(publishing := None), Database)
    case MarkClosed => next.(closed := true)
    case Work => next
  }

  ghost predicate Stuck(s: Store) {
    && (exists id :: id in s.threads && s.threads[id].code != Done)
    && (forall id :: id in s.threads ==> !CanStep(s, id))
  }

  /** Any number of threads, each about to run a method, in an open store nobody is in. */
  ghost predicate Initial(s: Store, programs: Code -> bool) {
    && s.owners == map[] && s.readers == {} && s.queries == {} && s.transition == None && s.publishing == None
    && !s.closed
    && (forall id :: id in s.threads ==> s.threads[id].asleep == None && programs(s.threads[id].code))
  }

  ghost predicate IsRun(run: seq<Store>, schedule: seq<nat>) {
    && |run| == |schedule| + 1
    && (forall i :: 0 <= i < |schedule| ==> CanStep(run[i], schedule[i]) && run[i + 1] == Perform(run[i], schedule[i]))
  }

  /* ---- What a thread is in the middle of, read off its remaining code. ---- */

  /** `awaits`: still has to wait for the readers; the last three say which guards are held. */
  datatype Context = Context(
    leased: bool, connected: bool, transiting: bool, publishing: bool, awaits: bool,
    state: bool, database: bool, pack: bool)

  const IDLE := Context(false, false, false, false, false, false, false, false)

  /** The context before a step, given the one after it. */
  function Before(i: Instr, c: Context): Context {
    match i
    case Lock(g) =>
      (match g
       case State => c.(state := false)
       case Database => c.(database := false)
       case Pack => c.(pack := false))
    case Unlock(g) =>
      (match g
       case State => c.(state := true)
       case Database => c.(database := true)
       case Pack => c.(pack := true))
    case EnterLease => c.(leased := false)
    case LeaveLease => c.(leased := true)
    case TakeConnection => c.(connected := false)
    case ReturnConnection => c.(connected := true)
    case ClaimTransition => c.(transiting := false, awaits := false)
    case AwaitNoReaders => c.(awaits := true)
    case EndTransition => c.(transiting := true)
    case BeginPublishing => c.(publishing := false)
    case EndPublishing => c.(publishing := true)
    case _ => c
  }

  function ContextOf(code: Code): Context {
    match code
    case Done => IDLE
    case Do(i, rest) => Before(i, ContextOf(rest))
  }

  predicate Holds(c: Context, g: Guard) {
    match g case State => c.state case Database => c.database case Pack => c.pack
  }

  predicate HoldsOnly(c: Context, g: Guard) {
    c.state == (g == State) && c.database == (g == Database) && c.pack == (g == Pack)
  }

  predicate Unengaged(c: Context) {
    !c.leased && !c.connected && !c.transiting && !c.publishing
  }

  /** The discipline of the methods: guard order, and what is waited for in the middle of what. */
  predicate Fits(i: Instr, before: Context, after: Context) {
    match i
    case Lock(g) =>
      Holds(after, g) && !before.pack && (g != Pack ==> !before.database) && (g == State ==> !before.state)
    case Unlock(g) => !Holds(after, g)
    case EnterLease => HoldsOnly(before, State) && Unengaged(before) && after.leased
    case LeaveLease => HoldsOnly(before, State) && Unengaged(after)
    case AwaitNoTransition => HoldsOnly(before, State) && Unengaged(before)
    case ClaimTransition => HoldsOnly(before, State) && Unengaged(before) && after.transiting && after.awaits
    case AwaitNoReaders =>
      HoldsOnly(before, State) && before.transiting && !before.leased && !before.connected && !before.publishing
      && !after.awaits
    case EndTransition => HoldsOnly(before, State) && !before.awaits && Unengaged(after)
    case AwaitPublished => HoldsOnly(before, Database) && before.leased && !before.transiting
    case TakeConnection => HoldsOnly(before, Database) && before.leased && !before.transiting && after.connected
    case ReturnConnection => HoldsOnly(before, Database) && before.leased && !after.connected
    case BeginPublishing =>
      HoldsOnly(before, Database) && before.transiting && !before.awaits && !before.leased && after.publishing
    case AwaitNoQueries =>
      HoldsOnly(before, Database) && before.transiting && !before.awaits && !before.leased && before.publishing
    case EndPublishing => HoldsOnly(before, Database) && before.transiting && !before.awaits && !after.publishing
    case MarkClosed => HoldsOnly(before, State) && before.transiting && !before.awaits
    case Work => true
  }

  predicate Proper(code: Code) {
    code.Do? ==> Proper(code.rest) && Fits(code.instr, ContextOf(code), ContextOf(code.rest))
  }

  lemma Prepend(i: Instr, rest: Code)
    requires Proper(rest) && Fits(i, Before(i, ContextOf(rest)), ContextOf(rest))
    ensures Proper(Do(i, rest)) && ContextOf(Do(i, rest)) == Before(i, ContextOf(rest))
  {
  }

  lemma NothingLeft()
    ensures Proper(Done) && ContextOf(Done) == IDLE
  {
  }

  const LEASED := IDLE.(leased := true)
  const CHANGING := IDLE.(transiting := true)
  const PUBLISHING := IDLE.(transiting := true, publishing := true, database := true)

  lemma LeavingProper()
    ensures Proper(Leaving()) && ContextOf(Leaving()) == LEASED
  {
    hide Proper, ContextOf;
    NothingLeft();
    Prepend(Unlock(State), Done);
    var c0 := Do(Unlock(State), Done);
    Prepend(LeaveLease, c0);
    var c1 := Do(LeaveLease, c0);
    Prepend(Lock(State), c1);
  }

  lemma EndingProper()
    ensures Proper(Ending()) && ContextOf(Ending()) == CHANGING
  {
    hide Proper, ContextOf;
    NothingLeft();
    Prepend(Unlock(State), Done);
    var c0 := Do(Unlock(State), Done);
    Prepend(EndTransition, c0);
    var c1 := Do(EndTransition, c0);
    Prepend(Lock(State), c1);
  }

  lemma ReleasingProper(rest: Code)
    requires Proper(rest) && !ContextOf(rest).pack
    ensures Proper(Releasing(rest)) && ContextOf(Releasing(rest)) == ContextOf(rest)
  {
    hide Proper, ContextOf;
    Prepend(Unlock(Pack), rest);
    var c0 := Do(Unlock(Pack), rest);
    Prepend(Work, c0);
    var c1 := Do(Work, c0);
    Prepend(Lock(Pack), c1);
  }

  lemma EnteringProper(rest: Code)
    requires Proper(rest) && ContextOf(rest) == LEASED
    ensures Proper(Entering(rest)) && ContextOf(Entering(rest)) == IDLE
  {
    hide Proper, ContextOf;
    Prepend(Unlock(State), rest);
    var c0 := Do(Unlock(State), rest);
    Prepend(EnterLease, c0);
    var c1 := Do(EnterLease, c0);
    Prepend(Lock(State), c1);
  }

  lemma ReadingEpochProper(rest: Code)
    requires Proper(rest) && ContextOf(rest) == LEASED
    ensures Proper(ReadingEpoch(rest)) && ContextOf(ReadingEpoch(rest)) == LEASED
  {
    hide Proper, ContextOf;
    Prepend(Unlock(Database), rest);
    var c0 := Do(Unlock(Database), rest);
    Prepend(AwaitPublished, c0);
    var c1 := Do(AwaitPublished, c0);
    Prepend(Lock(Database), c1);
  }

  lemma QueryingProper(rest: Code)
    requires Proper(rest) && ContextOf(rest) == LEASED
    ensures Proper(Querying(rest)) && ContextOf(Querying(rest)) == LEASED
  {
    hide Proper, ContextOf;
    Prepend(Unlock(Database), rest);
    var c0 := Do(Unlock(Database), rest);
    Prepend(ReturnConnection, c0);
    var c1 := Do(ReturnConnection, c0);
    Prepend(Lock(Database), c1);
    var c2 := Do(Lock(Database), c1);
    Prepend(Work, c2);
    var c3 := Do(Work, c2);
    Prepend(Unlock(Database), c3);
    var c4 := Do(Unlock(Database), c3);
    Prepend(TakeConnection, c4);
    var c5 := Do(TakeConnection, c4);
    Prepend(Lock(Database), c5);
  }

  lemma ChangingProper(rest: Code)
    requires Proper(rest) && ContextOf(rest) == CHANGING
    ensures Proper(Changing(rest)) && ContextOf(Changing(rest)) == IDLE
  {
    hide Proper, ContextOf;
    Prepend(Unlock(State), rest);
    var c0 := Do(Unlock(State), rest);
    Prepend(AwaitNoReaders, c0);
    var c1 := Do(AwaitNoReaders, c0);
    Prepend(ClaimTransition, c1);
    var c2 := Do(ClaimTransition, c1);
    Prepend(Lock(State), c2);
  }

  lemma PublicationProper(rest: Code)
    requires Proper(rest) && ContextOf(rest) == PUBLISHING
    ensures Proper(Publication(rest)) && ContextOf(Publication(rest)) == CHANGING
  {
    hide Proper, ContextOf;
    Prepend(Work, rest);
    var c0 := Do(Work, rest);
    Prepend(AwaitNoQueries, c0);
    var c1 := Do(AwaitNoQueries, c0);
    Prepend(BeginPublishing, c1);
    var c2 := Do(BeginPublishing, c1);
    Prepend(Lock(Database), c2);
  }

  lemma EndOfPublicationProper(rest: Code)
    requires Proper(rest) && ContextOf(rest) == CHANGING
    ensures Proper(EndOfPublication(rest)) && ContextOf(EndOfPublication(rest)) == PUBLISHING
  {
    hide Proper, ContextOf;
    Prepend(Unlock(Database), rest);
    var c0 := Do(Unlock(Database), rest);
    Prepend(EndPublishing, c0);
  }

  lemma ClosingProper(rest: Code)
    requires Proper(rest) && ContextOf(rest) == CHANGING
    ensures Proper(Closing(rest)) && ContextOf(Closing(rest)) == CHANGING
  {
    hide Proper, ContextOf;
    Prepend(Unlock(State), rest);
    var c0 := Do(Unlock(State), rest);
    Prepend(MarkClosed, c0);
    var c1 := Do(MarkClosed, c0);
    Prepend(Lock(State), c1);
  }

  lemma FetchingProper(queried: bool, rest: Code)
    requires Proper(rest) && ContextOf(rest) == LEASED
    ensures Proper(Fetching(queried, rest)) && ContextOf(Fetching(queried, rest)) == LEASED
  {
    hide Proper, ContextOf, Querying;
    QueryingProper(rest);
    Prepend(Work, rest);
  }

  lemma EndingLeaseProper(pack: bool, rest: Code)
    requires Proper(rest) && !ContextOf(rest).pack
    ensures Proper(EndingLease(pack, rest)) && ContextOf(EndingLease(pack, rest)) == ContextOf(rest)
  {
    hide Proper, ContextOf, Releasing;
    ReleasingProper(rest);
  }

  lemma GlanceProper(rest: Code)
    requires Proper(rest) && (ContextOf(rest) == LEASED || ContextOf(rest) == IDLE)
    ensures Proper(Glance(rest)) && ContextOf(Glance(rest)) == ContextOf(rest)
  {
    hide Proper, ContextOf;
    Prepend(Unlock(Database), rest);
    Prepend(Lock(Database), Do(Unlock(Database), rest));
  }

  lemma IndexingProper(rest: Code)
    requires Proper(rest) && ContextOf(rest) == LEASED
    ensures Proper(Indexing(rest)) && ContextOf(Indexing(rest)) == LEASED
  {
    hide Proper, ContextOf;
    Prepend(Unlock(Database), rest);
    var c0 := Do(Unlock(Database), rest);
    Prepend(ReturnConnection, c0);
    var c1 := Do(ReturnConnection, c0);
    Prepend(Work, c1);
    var c2 := Do(Work, c1);
    Prepend(TakeConnection, c2);
    var c3 := Do(TakeConnection, c2);
    Prepend(Lock(Database), c3);
  }

  lemma PackedAudioProper(rest: Code)
    requires Proper(rest) && ContextOf(rest) == IDLE
    ensures Proper(PackedAudioCode(rest)) && ContextOf(PackedAudioCode(rest)) == IDLE
  {
    hide Proper, ContextOf;
    Prepend(Work, rest);
    var c0 := Do(Work, rest);
    Prepend(Unlock(State), c0);
    var c1 := Do(Unlock(State), c0);
    Prepend(Unlock(Pack), c1);
    var c2 := Do(Unlock(Pack), c1);
    Prepend(Lock(Pack), c2);
    var c3 := Do(Lock(Pack), c2);
    Prepend(AwaitNoTransition, c3);
    var c4 := Do(AwaitNoTransition, c3);
    Prepend(Lock(State), c4);
  }

  /** Every reading method keeps the discipline, from start to end. */
  lemma ReadersProper(m: Method)
    requires !Changes(m) && !m.LookupFirst?
    ensures Proper(Program(m)) && ContextOf(Program(m)) == IDLE
  {
    hide Proper, ContextOf, Entering, ReadingEpoch, Fetching, Releasing, EndingLease, Leaving, Glance, Indexing,
      PackedAudioCode;
    LeavingProper();
    ReleasingProper(Leaving());
    EndingLeaseProper(true, Leaving());
    EndingLeaseProper(false, Leaving());
    match m
    case Lookup(hit, queried, pack) =>
      var last := EndingLease(pack, Leaving());
      FetchingProper(queried, last);
      ReadingEpochProper(Fetching(queried, last));
      var rest := if hit then last else ReadingEpoch(Fetching(queried, last));
      ReleasingProper(rest);
      GlanceProper(Releasing(rest));
      EnteringProper(Glance(Releasing(rest)));
    case LookupUncached(queried, pack) =>
      var last := EndingLease(pack, Leaving());
      FetchingProper(queried, last);
      ReadingEpochProper(Fetching(queried, last));
      ReleasingProper(ReadingEpoch(Fetching(queried, last)));
      EnteringProper(Releasing(ReadingEpoch(Fetching(queried, last))));
    case Rows(queried) =>
      FetchingProper(queried, Leaving());
      ReadingEpochProper(Fetching(queried, Leaving()));
      EnteringProper(ReadingEpoch(Fetching(queried, Leaving())));
    case BestAudioUrl(queried, found, pack) =>
      ReleasingProper(EndingLease(pack, Leaving()));
      var rest := if found then Releasing(EndingLease(pack, Leaving())) else Leaving();
      FetchingProper(queried, rest);
      ReadingEpochProper(Fetching(queried, rest));
      EnteringProper(ReadingEpoch(Fetching(queried, rest)));
    case CandidatesPayload(queried, pack) =>
      var rest := Releasing(EndingLease(pack, Leaving()));
      ReleasingProper(EndingLease(pack, Leaving()));
      FetchingProper(queried, rest);
      ReadingEpochProper(Fetching(queried, rest));
      EnteringProper(ReadingEpoch(Fetching(queried, rest)));
    case PathTarget(indexed, known, pack) =>
      ReleasingProper(EndingLease(pack, Leaving()));
      var found := if known then Releasing(EndingLease(pack, Leaving())) else Leaving();
      GlanceProper(found);
      IndexingProper(found);
      EnteringProper(if indexed then Glance(found) else Indexing(found));
    case LeasedPackedAudio(pack) =>
      NothingLeft();
      EndingLeaseProper(pack, Done);
      PackedAudioProper(EndingLease(pack, Done));
    case StoreInfo =>
      GlanceProper(Releasing(Leaving()));
      EnteringProper(Glance(Releasing(Leaving())));
  }

  /** So does every changing one. */
  lemma ChangersProper(m: Method)
    requires Changes(m)
    ensures Proper(Program(m)) && ContextOf(Program(m)) == IDLE
  {
    hide Proper, ContextOf, Changing, Ending, Releasing, Publication, EndOfPublication, Closing;
    EndingProper();
    ReleasingProper(Ending());
    EndOfPublicationProper(Ending());
    match m
    case ReloadPack => ChangingProper(Releasing(Ending()));
    case PublishDatabase(allowed, replaced) =>
      ReleasingProper(EndOfPublication(Ending()));
      var body := if replaced then Releasing(EndOfPublication(Ending())) else EndOfPublication(Ending());
      PublicationProper(body);
      ChangingProper(if allowed then Publication(body) else Ending());
    case ReplaceSources =>
      Prepend(Work, Ending());
      ChangingProper(Do(Work, Ending()));
    case CloseStore =>
      EndOfPublicationProper(Releasing(Ending()));
      PublicationProper(EndOfPublication(Releasing(Ending())));
      ClosingProper(Publication(EndOfPublication(Releasing(Ending()))));
      ChangingProper(Closing(Publication(EndOfPublication(Releasing(Ending())))));
  }

  /** Every method but `lookup_first` keeps the discipline. */
  lemma MethodsProper(m: Method)
    requires !m.LookupFirst?
    ensures Proper(Program(m)) && ContextOf(Program(m)) == IDLE
  {
    hide Program;
    if Changes(m) { ChangersProper(m); } else { ReadersProper(m); }
  }

  /* ---- What each method does. ---- */

  /** The steps that tell methods apart. */
  predicate Telling(i: Instr) {
    !i.Lock? && !i.Unlock? && !i.Work?
  }

  predicate Uses(code: Code, i: Instr) {
    code.Do? && (code.instr == i || Uses(code.rest, i))
  }

  /** Rows, connections and packs are touched under a lease, or in a transition without readers. */
  predicate Covered(code: Code, sheltered: bool) {
    code.Do? ==>
      && (code.instr == Work || code.instr == Lock(Pack) || code.instr == TakeConnection ==> sheltered)
      && Covered(code.rest, Sheltered(code.instr, sheltered))
  }

  predicate Sheltered(i: Instr, before: bool) {
    match i
    case EnterLease => true
    case AwaitNoReaders => true
    case LeaveLease => false
    case EndTransition => false
    case _ => before
  }

  /** The paths that read through a connection. */
  predicate Queries(m: Method) {
    match m
    case Lookup(hit, queried, _) => queried && !hit
    case LookupUncached(queried, _) => queried
    case Rows(queried) => queried
    case BestAudioUrl(queried, _, _) => queried
    case CandidatesPayload(queried, _) => queried
    case PathTarget(indexed, _, _) => !indexed
    case LookupFirst(hit, queried, _) => queried && !hit
    case _ => false
  }

  predicate Publishes(m: Method) {
    m.CloseStore? || (m.PublishDatabase? && m.allowed)
  }

  /** Readers lease, changes claim a transition and drain it, and only some of them publish or close. */
  predicate PartOf(m: Method, i: Instr) {
    match i
    case EnterLease => !Changes(m) && !m.LeasedPackedAudio?
    case LeaveLease => !Changes(m) && !m.LeasedPackedAudio?
    case AwaitNoTransition => m.LeasedPackedAudio? || m.LookupFirst?
    case ClaimTransition => Changes(m)
    case AwaitNoReaders => Changes(m)
    case EndTransition => Changes(m)
    case AwaitPublished => !Changes(m) && !m.LeasedPackedAudio? && !m.PathTarget? && !m.StoreInfo? && !m.LookupFirst?
                           && !(m.Lookup? && m.hit)
    case TakeConnection => Queries(m)
    case ReturnConnection => Queries(m)
    case BeginPublishing => Publishes(m)
    case AwaitNoQueries => Publishes(m)
    case EndPublishing => Publishes(m)
    case MarkClosed => m.CloseStore?
    case _ => false
  }

  lemma OneStep(step: Instr, rest: Code, i: Instr)
    ensures Uses(Do(step, rest), i) <==> step == i || Uses(rest, i)
    ensures forall sheltered :: Covered(Do(step, rest), sheltered) <==>
              && (step == Work || step == Lock(Pack) || step == TakeConnection ==> sheltered)
              && Covered(rest, Sheltered(step, sheltered))
  {
  }

  lemma LeavingParts(i: Instr)
    requires Telling(i)
    ensures Uses(Leaving(), i) <==> i == LeaveLease
    ensures Covered(Leaving(), true)
  {
  }

  lemma EndingParts(i: Instr)
    requires Telling(i)
    ensures Uses(Ending(), i) <==> i == EndTransition
    ensures Covered(Ending(), true)
  {
  }

  lemma ReleasingParts(rest: Code, i: Instr)
    requires Telling(i)
    ensures Uses(Releasing(rest), i) <==> Uses(rest, i)
    ensures Covered(Releasing(rest), true) <==> Covered(rest, true)
  {
    hide Uses, Covered;
    OneStep(Unlock(Pack), rest, i);
    var c0 := Do(Unlock(Pack), rest);
    OneStep(Work, c0, i);
    var c1 := Do(Work, c0);
    OneStep(Lock(Pack), c1, i);
  }

  lemma EnteringParts(rest: Code, i: Instr)
    requires Telling(i)
    ensures Uses(Entering(rest), i) <==> i == EnterLease || Uses(rest, i)
    ensures Covered(Entering(rest), false) <==> Covered(rest, true)
  {
    hide Uses, Covered;
    OneStep(Unlock(State), rest, i);
    var c0 := Do(Unlock(State), rest);
    OneStep(EnterLease, c0, i);
    var c1 := Do(EnterLease, c0);
    OneStep(Lock(State), c1, i);
  }

  lemma ReadingEpochParts(rest: Code, i: Instr)
    requires Telling(i)
    ensures Uses(ReadingEpoch(rest), i) <==> i == AwaitPublished || Uses(rest, i)
    ensures Covered(ReadingEpoch(rest), true) <==> Covered(rest, true)
  {
    hide Uses, Covered;
    OneStep(Unlock(Database), rest, i);
    var c0 := Do(Unlock(Database), rest);
    OneStep(AwaitPublished, c0, i);
    var c1 := Do(AwaitPublished, c0);
    OneStep(Lock(Database), c1, i);
  }

  lemma QueryingParts(rest: Code, i: Instr)
    requires Telling(i)
    ensures Uses(Querying(rest), i) <==> i == TakeConnection || i == ReturnConnection || Uses(rest, i)
    ensures Covered(Querying(rest), true) <==> Covered(rest, true)
  {
    hide Uses, Covered;
    OneStep(Unlock(Database), rest, i);
    var c0 := Do(Unlock(Database), rest);
    OneStep(ReturnConnection, c0, i);
    var c1 := Do(ReturnConnection, c0);
    OneStep(Lock(Database), c1, i);
    var c2 := Do(Lock(Database), c1);
    OneStep(Work, c2, i);
    var c3 := Do(Work, c2);
    OneStep(Unlock(Database), c3, i);
    var c4 := Do(Unlock(Database), c3);
    OneStep(TakeConnection, c4, i);
    var c5 := Do(TakeConnection, c4);
    OneStep(Lock(Database), c5, i);
  }

  lemma ChangingParts(rest: Code, i: Instr)
    requires Telling(i)
    ensures Uses(Changing(rest), i) <==> i == ClaimTransition || i == AwaitNoReaders || Uses(rest, i)
    ensures Covered(Changing(rest), false) <==> Covered(rest, true)
  {
    hide Uses, Covered;
    OneStep(Unlock(State), rest, i);
    var c0 := Do(Unlock(State), rest);
    OneStep(AwaitNoReaders, c0, i);
    var c1 := Do(AwaitNoReaders, c0);
    OneStep(ClaimTransition, c1, i);
    var c2 := Do(ClaimTransition, c1);
    OneStep(Lock(State), c2, i);
  }

  lemma PublicationParts(rest: Code, i: Instr)
    requires Telling(i)
    ensures Uses(Publication(rest), i) <==> i == BeginPublishing || i == AwaitNoQueries || Uses(rest, i)
    ensures Covered(Publication(rest), true) <==> Covered(rest, true)
  {
    hide Uses, Covered;
    OneStep(Work, rest, i);
    var c0 := Do(Work, rest);
    OneStep(AwaitNoQueries, c0, i);
    var c1 := Do(AwaitNoQueries, c0);
    OneStep(BeginPublishing, c1, i);
    var c2 := Do(BeginPublishing, c1);
    OneStep(Lock(Database), c2, i);
  }

  lemma EndOfPublicationParts(rest: Code, i: Instr)
    requires Telling(i)
    ensures Uses(EndOfPublication(rest), i) <==> i == EndPublishing || Uses(rest, i)
    ensures Covered(EndOfPublication(rest), true) <==> Covered(rest, true)
  {
  }

  lemma ClosingParts(rest: Code, i: Instr)
    requires Telling(i)
    ensures Uses(Closing(rest), i) <==> i == MarkClosed || Uses(rest, i)
    ensures Covered(Closing(rest), true) <==> Covered(rest, true)
  {
    hide Uses, Covered;
    OneStep(Unlock(State), rest, i);
    var c0 := Do(Unlock(State), rest);
    OneStep(MarkClosed, c0, i);
    var c1 := Do(MarkClosed, c0);
    OneStep(Lock(State), c1, i);
  }

  lemma GlanceParts(rest: Code, i: Instr)
    requires Telling(i)
    ensures Uses(Glance(rest), i) <==> Uses(rest, i)
    ensures Covered(Glance(rest), true) <==> Covered(rest, true)
  {
  }

  lemma IndexingParts(rest: Code, i: Instr)
    requires Telling(i)
    ensures Uses(Indexing(rest), i) <==> i == TakeConnection || i == ReturnConnection || Uses(rest, i)
    ensures Covered(Indexing(rest), true) <==> Covered(rest, true)
  {
    hide Uses, Covered;
    OneStep(Unlock(Database), rest, i);
    var c0 := Do(Unlock(Database), rest);
    OneStep(ReturnConnection, c0, i);
    var c1 := Do(ReturnConnection, c0);
    OneStep(Work, c1, i);
    var c2 := Do(Work, c1);
    OneStep(TakeConnection, c2, i);
    var c3 := Do(TakeConnection, c2);
    OneStep(Lock(Database), c3, i);
  }

  lemma PackedAudioCodeParts(rest: Code, i: Instr)
    requires Telling(i)
    ensures Uses(PackedAudioCode(rest), i) <==> i == AwaitNoTransition || Uses(rest, i)
    ensures Covered(PackedAudioCode(rest), true) <==> Covered(rest, true)
  {
    hide Uses, Covered;
    OneStep(Work, rest, i);
    var c0 := Do(Work, rest);
    OneStep(Unlock(State), c0, i);
    var c1 := Do(Unlock(State), c0);
    OneStep(Unlock(Pack), c1, i);
    var c2 := Do(Unlock(Pack), c1);
    OneStep(Lock(Pack), c2, i);
    var c3 := Do(Lock(Pack), c2);
    OneStep(AwaitNoTransition, c3, i);
    var c4 := Do(AwaitNoTransition, c3);
    OneStep(Lock(State), c4, i);
  }

  lemma FetchingParts(queried: bool, rest: Code, i: Instr)
    requires Telling(i)
    ensures Uses(Fetching(queried, rest), i) <==>
              (queried && (i == TakeConnection || i == ReturnConnection)) || Uses(rest, i)
    ensures Covered(Fetching(queried, rest), true) <==> Covered(rest, true)
  {
    hide Uses, Covered, Querying;
    QueryingParts(rest, i);
    OneStep(Work, rest, i);
  }

  lemma EndingLeaseParts(pack: bool, rest: Code, i: Instr)
    requires Telling(i)
    ensures Uses(EndingLease(pack, rest), i) <==> Uses(rest, i)
    ensures Covered(EndingLease(pack, rest), true) <==> Covered(rest, true)
  {
    hide Uses, Covered, Releasing;
    ReleasingParts(rest, i);
  }

  lemma LookupParts(m: Method, i: Instr)
    requires Telling(i) && (m.Lookup? || m.LookupUncached?)
    ensures Uses(Program(m), i) <==> PartOf(m, i)
    ensures Covered(Program(m), false)
  {
    hide Uses, Covered, Entering, ReadingEpoch, Fetching, Releasing, EndingLease, Leaving, Glance, Indexing,
      PackedAudioCode;
    LeavingParts(i);
    match m
    case Lookup(hit, queried, pack) =>
      var last := EndingLease(pack, Leaving());
      EndingLeaseParts(pack, Leaving(), i);
      FetchingParts(queried, last, i);
      ReadingEpochParts(Fetching(queried, last), i);
      var rest := if hit then last else ReadingEpoch(Fetching(queried, last));
      ReleasingParts(rest, i);
      GlanceParts(Releasing(rest), i);
      EnteringParts(Glance(Releasing(rest)), i);
    case LookupUncached(queried, pack) =>
      var last := EndingLease(pack, Leaving());
      EndingLeaseParts(pack, Leaving(), i);
      FetchingParts(queried, last, i);
      ReadingEpochParts(Fetching(queried, last), i);
      ReleasingParts(ReadingEpoch(Fetching(queried, last)), i);
      EnteringParts(Releasing(ReadingEpoch(Fetching(queried, last))), i);
  }

  lemma RowsParts(m: Method, i: Instr)
    requires Telling(i) && (m.Rows? || m.BestAudioUrl? || m.CandidatesPayload?)
    ensures Uses(Program(m), i) <==> PartOf(m, i)
    ensures Covered(Program(m), false)
  {
    hide Uses, Covered, Entering, ReadingEpoch, Fetching, Releasing, EndingLease, Leaving, Glance, Indexing,
      PackedAudioCode;
    LeavingParts(i);
    match m
    case Rows(queried) =>
      FetchingParts(queried, Leaving(), i);
      ReadingEpochParts(Fetching(queried, Leaving()), i);
      EnteringParts(ReadingEpoch(Fetching(queried, Leaving())), i);
    case BestAudioUrl(queried, found, pack) =>
      EndingLeaseParts(pack, Leaving(), i);
      ReleasingParts(EndingLease(pack, Leaving()), i);
      var rest := if found then Releasing(EndingLease(pack, Leaving())) else Leaving();
      FetchingParts(queried, rest, i);
      ReadingEpochParts(Fetching(queried, rest), i);
      EnteringParts(ReadingEpoch(Fetching(queried, rest)), i);
    case CandidatesPayload(queried, pack) =>
      EndingLeaseParts(pack, Leaving(), i);
      var rest := Releasing(EndingLease(pack, Leaving()));
      ReleasingParts(EndingLease(pack, Leaving()), i);
      FetchingParts(queried, rest, i);
      ReadingEpochParts(Fetching(queried, rest), i);
      EnteringParts(ReadingEpoch(Fetching(queried, rest)), i);
  }

  lemma OtherReaderParts(m: Method, i: Instr)
    requires Telling(i) && (m.PathTarget? || m.StoreInfo? || m.LookupFirst?)
    ensures Uses(Program(m), i) <==> PartOf(m, i)
    ensures Covered(Program(m), false)
  {
    hide Uses, Covered, Entering, ReadingEpoch, Fetching, Releasing, EndingLease, Leaving, Glance, Indexing,
      PackedAudioCode;
    LeavingParts(i);
    match m
    case PathTarget(indexed, known, pack) =>
      EndingLeaseParts(pack, Leaving(), i);
      ReleasingParts(EndingLease(pack, Leaving()), i);
      var found := if known then Releasing(EndingLease(pack, Leaving())) else Leaving();
      GlanceParts(found, i);
      IndexingParts(found, i);
      EnteringParts(if indexed then Glance(found) else Indexing(found), i);
    case StoreInfo =>
      ReleasingParts(Leaving(), i);
      GlanceParts(Releasing(Leaving()), i);
      EnteringParts(Glance(Releasing(Leaving())), i);
    case LookupFirst(hit, queried, pack) =>
      var last := EndingLease(pack, Leaving());
      EndingLeaseParts(pack, Leaving(), i);
      FetchingParts(queried, last, i);
      PackedAudioCodeParts(FirstAnswer(hit, queried, pack), i);
      GlanceParts(PackedAudioCode(FirstAnswer(hit, queried, pack)), i);
      EnteringParts(Glance(PackedAudioCode(FirstAnswer(hit, queried, pack))), i);
  }

  lemma ReaderParts(m: Method, i: Instr)
    requires Telling(i) && !Changes(m) && !m.LeasedPackedAudio?
    ensures Uses(Program(m), i) <==> PartOf(m, i)
    ensures Covered(Program(m), false)
  {
    hide Uses, Covered, Program, PartOf, Telling;
    if m.Lookup? || m.LookupUncached? {
      LookupParts(m, i);
    } else if m.Rows? || m.BestAudioUrl? || m.CandidatesPayload? {
      RowsParts(m, i);
    } else {
      OtherReaderParts(m, i);
    }
  }

  lemma ChangerParts(m: Method, i: Instr)
    requires Telling(i) && Changes(m)
    ensures Uses(Program(m), i) <==> PartOf(m, i)
    ensures Covered(Program(m), false)
  {
    hide Uses, Covered, Changing, Ending, Releasing, Publication, EndOfPublication, Closing;
    EndingParts(i);
    match m
    case ReloadPack =>
      ReleasingParts(Ending(), i);
      ChangingParts(Releasing(Ending()), i);
    case PublishDatabase(allowed, replaced) =>
      EndOfPublicationParts(Ending(), i);
      ReleasingParts(EndOfPublication(Ending()), i);
      var body := if replaced then Releasing(EndOfPublication(Ending())) else EndOfPublication(Ending());
      PublicationParts(body, i);
      ChangingParts(if allowed then Publication(body) else Ending(), i);
    case ReplaceSources =>
      OneStep(Work, Ending(), i);
      ChangingParts(Do(Work, Ending()), i);
    case CloseStore =>
      ReleasingParts(Ending(), i);
      EndOfPublicationParts(Releasing(Ending()), i);
      PublicationParts(EndOfPublication(Releasing(Ending())), i);
      ClosingParts(Publication(EndOfPublication(Releasing(Ending()))), i);
      ChangingParts(Closing(Publication(EndOfPublication(Releasing(Ending())))), i);
  }

  /**
   * Every method goes through exactly the gates that are its part, and all but `leased_packed_audio`
   * touch rows, connections and packs only under a lease or in a transition without readers.
   */
  lemma MethodsDoTheirPart(m: Method, i: Instr)
    requires Telling(i)
    ensures Uses(Program(m), i) <==> PartOf(m, i)
    ensures !m.LeasedPackedAudio? ==> Covered(Program(m), false)
  {
    hide Uses, Covered, Program, PackedAudioCode, EndingLease;
    match m
    case LeasedPackedAudio(pack) => PackedParts(pack, i);
    case _ => if Changes(m) { ChangerParts(m, i); } else { ReaderParts(m, i); }
  }

  lemma PackedParts(pack: bool, i: Instr)
    requires Telling(i)
    ensures Uses(Program(LeasedPackedAudio(pack)), i) <==> i == AwaitNoTransition
  {
    hide PackedAudioCode, EndingLease;
    EndingLeaseParts(pack, Done, i);
    PackedAudioCodeParts(EndingLease(pack, Done), i);
  }

  /* ---- The invariant. ---- */

  /** The guard whose condition a step may wait on. */
  function WaitsOn(i: Instr): Option<Guard> {
    match i
    case EnterLease => Some(State)
    case AwaitNoTransition => Some(State)
    case ClaimTransition => Some(State)
    case AwaitNoReaders => Some(State)
    case AwaitPublished => Some(Database)
    case TakeConnection => Some(Database)
    case AwaitNoQueries => Some(Database)
    case _ => None
  }

  /** What keeps it waiting; a closed store only adds reasons to go on. */
  predicate KeepsWaiting(s: Store, i: Instr) {
    match i
    case EnterLease => s.transition.Some?
    case AwaitNoTransition => s.transition.Some?
    case ClaimTransition => s.transition.Some?
    case AwaitNoReaders => s.readers != {}
    case AwaitPublished => s.publishing.Some?
    case TakeConnection => s.publishing.Some?
    case AwaitNoQueries => s.queries != {}
    case _ => false
  }

  predicate OwnsAsHeld(s: Store, id: nat, t: Thread, g: Guard) {
    Owned(s, g) == Some(id) <==> t.asleep.None? && Holds(ContextOf(t.code), g)
  }

  /** The shared fields agree with where the thread is; a sleeper that was not notified still has to wait. */
  predicate Placed(s: Store, id: nat, t: Thread) {
    && Proper(t.code)
    && (id in s.readers <==> ContextOf(t.code).leased)
    && (id in s.queries <==> ContextOf(t.code).connected)
    && (s.transition == Some(id) <==> ContextOf(t.code).transiting)
    && (s.publishing == Some(id) <==> ContextOf(t.code).publishing)
    && OwnsAsHeld(s, id, t, State) && OwnsAsHeld(s, id, t, Database) && OwnsAsHeld(s, id, t, Pack)
    && (ContextOf(t.code).transiting && !ContextOf(t.code).awaits ==> s.readers == {})
    && (t.asleep.Some? ==> t.code.Do? && WaitsOn(t.code.instr) == t.asleep && KeepsWaiting(s, t.code.instr))
  }

  ghost predicate Orderly(s: Store) {
    && (forall id :: id in s.threads ==> Placed(s, id, s.threads[id]))
    && s.readers <= s.threads.Keys && s.queries <= s.threads.Keys
    && (s.transition.Some? ==> s.transition.value in s.threads)
    && (s.publishing.Some? ==> s.publishing.value in s.threads)
    && (forall g :: g in s.owners ==> s.owners[g] in s.threads)
  }

  lemma Unfold(code: Code)
    requires code.Do? && Proper(code)
    ensures ContextOf(code) == Before(code.instr, ContextOf(code.rest))
    ensures Proper(code.rest) && Fits(code.instr, ContextOf(code), ContextOf(code.rest))
  {
    hide Before, Fits;
  }

  /** Publishing happens inside a transition, after its readers are gone. */
  predicate Nested(c: Context) {
    && (c.publishing ==> c.transiting && !c.awaits)
    && (c.connected ==> c.leased)
  }

  lemma NestedBefore(i: Instr, c: Context)
    requires Nested(c) && Fits(i, Before(i, c), c)
    ensures Nested(Before(i, c))
  {
  }

  lemma {:induction false} ProperNested(code: Code)
    requires Proper(code)
    ensures Nested(ContextOf(code))
  {
    hide Nested, Before, Fits, Proper, ContextOf;
    if code.Do? {
      Unfold(code);
      ProperNested(code.rest);
      NestedBefore(code.instr, ContextOf(code.rest));
    } else {
      NothingNested();
    }
  }

  lemma NothingNested()
    ensures Nested(ContextOf(Done))
  {
  }

  /* ---- Steps keep it. ---- */

  /** Nothing a thread can see about itself in the shared fields has changed. */
  predicate SameFor(s: Store, t: Store, id: nat) {
    && (id in t.readers <==> id in s.readers) && (id in t.queries <==> id in s.queries)
    && (t.transition == Some(id) <==> s.transition == Some(id))
    && (t.publishing == Some(id) <==> s.publishing == Some(id))
    && (Owned(t, State) == Some(id) <==> Owned(s, State) == Some(id))
    && (Owned(t, Database) == Some(id) <==> Owned(s, Database) == Some(id))
    && (Owned(t, Pack) == Some(id) <==> Owned(s, Pack) == Some(id))
  }

  lemma Bystander(s: Store, t: Store, id: nat, thread: Thread)
    requires Placed(s, id, thread) && SameFor(s, t, id)
    requires ContextOf(thread.code).transiting && !ContextOf(thread.code).awaits ==> t.readers == {}
    requires thread.asleep.Some? && thread.code.Do? ==> KeepsWaiting(t, thread.code.instr)
    ensures Placed(t, id, thread)
  {
  }

  lemma WokenPlaced(s: Store, t: Store, id: nat, thread: Thread, g: Guard)
    requires Placed(s, id, thread) && SameFor(s, t, id)
    requires ContextOf(thread.code).transiting && !ContextOf(thread.code).awaits ==> t.readers == {}
    requires thread.asleep.Some? && thread.code.Do? && thread.asleep != Some(g) ==> KeepsWaiting(t, thread.code.instr)
    ensures Placed(t, id, Woken(thread, g))
  {
    if thread.asleep == Some(g) {
      WaitingHoldsOnly(thread.code);
    }
  }

  lemma WaitingHoldsOnly(code: Code)
    requires Proper(code) && code.Do? && WaitsOn(code.instr).Some?
    ensures HoldsOnly(ContextOf(code), WaitsOn(code.instr).value)
  {
  }

  /** What a step may leave of the shared fields, as the other threads see them. */
  ghost predicate Undisturbed(s: Store, t: Store, id: nat, notified: Option<Guard>) {
    && (forall u :: u in s.threads && u != id ==> SameFor(s, t, u))
    && (t.readers <= s.readers || s.transition.None?)
    && (s.readers != {} && t.readers == {} ==> notified == Some(State))
    && (s.queries != {} && t.queries == {} ==> notified == Some(Database))
    && (s.transition.Some? && t.transition.None? ==> notified == Some(State))
    && (s.publishing.Some? && t.publishing.None? ==> notified == Some(Database))
  }

  lemma OthersPlaced(s: Store, t: Store, id: nat, u: nat, notified: Option<Guard>)
    requires Orderly(s) && Undisturbed(s, t, id, notified) && u in s.threads && u != id
    ensures notified.None? ==> Placed(t, u, s.threads[u])
    ensures notified.Some? ==> Placed(t, u, Woken(s.threads[u], notified.value))
  {
    hide Proper, ContextOf, SameFor, OwnsAsHeld;
    var thread := s.threads[u];
    assert SameFor(s, t, u);
    if notified.Some? {
      WokenPlaced(s, t, u, thread, notified.value);
    } else {
      Bystander(s, t, u, thread);
    }
  }

  /** A step that changes one thread and notifies nobody. */
  lemma QuietStep(s: Store, t: Store, id: nat, thread: Thread)
    requires Orderly(s) && id in s.threads && Undisturbed(s, t, id, None)
    requires t.threads == s.threads[id := thread] && Placed(t, id, thread)
    requires t.readers <= s.readers + {id} && t.queries <= s.queries + {id}
    requires t.transition in {s.transition, Some(id), None} && t.publishing in {s.publishing, Some(id), None}
    requires forall g :: g in t.owners ==> t.owners[g] == id || (g in s.owners && t.owners[g] == s.owners[g])
    ensures Orderly(t)
  {
    hide Placed, Undisturbed;
    forall u | u in t.threads ensures Placed(t, u, t.threads[u]) {
      if u != id { OthersPlaced(s, t, id, u, None); }
    }
  }

  /** A step that changes one thread and notifies the waiters of a guard. */
  lemma NotifyingStep(s: Store, before: Store, id: nat, thread: Thread, g: Guard)
    requires Orderly(s) && id in s.threads && Undisturbed(s, Notify(before, g), id, Some(g))
    requires before.threads == s.threads[id := thread] && thread.asleep.None? && Placed(Notify(before, g), id, thread)
    requires before.readers <= s.readers && before.queries <= s.queries && before.owners == s.owners
    requires before.transition in {s.transition, None} && before.publishing in {s.publishing, None}
    ensures Orderly(Notify(before, g))
  {
    hide Placed, Undisturbed;
    var t := Notify(before, g);
    forall u | u in t.threads ensures Placed(t, u, t.threads[u]) {
      if u != id { OthersPlaced(s, t, id, u, Some(g)); }
    }
  }

  /** What the acting thread knows about itself. */
  lemma Acting(s: Store, id: nat)
    requires Orderly(s) && CanStep(s, id)
    ensures var code := s.threads[id].code;
            && Placed(s, id, s.threads[id]) && Proper(code.rest) && Nested(ContextOf(code))
            && ContextOf(code) == Before(code.instr, ContextOf(code.rest))
            && Fits(code.instr, ContextOf(code), ContextOf(code.rest))
  {
    hide ContextOf, Before, Fits, Nested;
    assert Placed(s, id, s.threads[id]);
    Unfold(s.threads[id].code);
    ProperNested(s.threads[id].code);
  }

  /** Taking or giving up a guard disturbs nobody else. */
  lemma OwnersOnly(s: Store, t: Store, id: nat, g: Guard)
    requires t.readers == s.readers && t.queries == s.queries
    requires t.transition == s.transition && t.publishing == s.publishing
    requires forall h :: h != g ==> Owned(t, h) == Owned(s, h)
    requires Owned(s, g).None? || Owned(s, g) == Some(id)
    requires Owned(t, g).None? || Owned(t, g) == Some(id)
    ensures Undisturbed(s, t, id, None)
  {
    hide Owned;
  }

  lemma SleepPlaced(s: Store, id: nat, g: Guard)
    requires Orderly(s) && CanStep(s, id)
    requires WaitsOn(s.threads[id].code.instr) == Some(g) && KeepsWaiting(s, s.threads[id].code.instr)
    ensures Placed(Sleep(s, id, g), id, Thread(s.threads[id].code, Some(g)))
  {
    assert Placed(s, id, s.threads[id]);
    WaitingHoldsOnly(s.threads[id].code);
    SleepKeepsReason(s, id, g);
    GuardGivenUp(s, id, g);
    hide Proper, ContextOf, Orderly, KeepsWaiting, WaitsOn, Perform, CanStep, OwnsAsHeld;
  }

  /** A sleeper owns nothing. */
  lemma GuardGivenUp(s: Store, id: nat, g: Guard)
    requires id in s.threads && s.threads[id].asleep.None? && HoldsOnly(ContextOf(s.threads[id].code), g)
    requires forall h :: OwnsAsHeld(s, id, s.threads[id], h)
    ensures forall h :: OwnsAsHeld(Sleep(s, id, g), id, Thread(s.threads[id].code, Some(g)), h)
  {
    hide ContextOf;
    forall h ensures OwnsAsHeld(Sleep(s, id, g), id, Thread(s.threads[id].code, Some(g)), h) {
      assert OwnsAsHeld(s, id, s.threads[id], h);
    }
  }

  lemma SleepKeepsReason(s: Store, id: nat, g: Guard)
    requires id in s.threads
    ensures forall i :: KeepsWaiting(Sleep(s, id, g), i) == KeepsWaiting(s, i)
  {
  }

  lemma SleepKeeps(s: Store, id: nat, g: Guard)
    requires Orderly(s) && CanStep(s, id)
    requires WaitsOn(s.threads[id].code.instr) == Some(g) && KeepsWaiting(s, s.threads[id].code.instr)
    ensures Orderly(Sleep(s, id, g))
  {
    SleepPlaced(s, id, g);
    assert Placed(s, id, s.threads[id]);
    WaitingHoldsOnly(s.threads[id].code);
    assert Owned(s, g) == Some(id);
    hide Proper, ContextOf, Orderly, Placed, KeepsWaiting, WaitsOn, Undisturbed;
    var t := Sleep(s, id, g);
    OwnersOnly(s, t, id, g);
    QuietStep(s, t, id, t.threads[id]);
  }

  lemma RefusedKeeps(s: Store, id: nat)
    requires Orderly(s) && CanStep(s, id)
    requires WaitsOn(s.threads[id].code.instr) == Some(State) && Unengaged(ContextOf(s.threads[id].code))
    ensures Orderly(Advance(s, id, Do(Unlock(State), Done)))
  {
    Acting(s, id);
    WaitingHoldsOnly(s.threads[id].code);
    NothingLeft();
    Prepend(Unlock(State), Done);
    hide Proper, ContextOf, Fits, Orderly;
    var t := Advance(s, id, Do(Unlock(State), Done));
    assert Placed(t, id, t.threads[id]);
    assert Owned(s, State) == Some(id);
    hide Placed, KeepsWaiting, WaitsOn, Undisturbed, Before;
    OwnersOnly(s, t, id, State);
    QuietStep(s, t, id, t.threads[id]);
  }

  predicate SameEngagement(c: Context, d: Context) {
    c.leased == d.leased && c.connected == d.connected && c.transiting == d.transiting
    && c.publishing == d.publishing && c.awaits == d.awaits
  }

  lemma LockContext(g: Guard, after: Context)
    ensures SameEngagement(Before(Lock(g), after), after)
    ensures Holds(Before(Lock(g), after), State) == (g != State && after.state)
    ensures Holds(Before(Lock(g), after), Database) == (g != Database && after.database)
    ensures Holds(Before(Lock(g), after), Pack) == (g != Pack && after.pack)
    ensures Holds(after, State) == after.state && Holds(after, Database) == after.database
            && Holds(after, Pack) == after.pack
  {
    match g
    case State =>
    case Database =>
    case Pack =>
  }

  lemma UnlockContext(g: Guard, after: Context)
    ensures SameEngagement(Before(Unlock(g), after), after)
    ensures Holds(Before(Unlock(g), after), State) == (g == State || after.state)
    ensures Holds(Before(Unlock(g), after), Database) == (g == Database || after.database)
    ensures Holds(Before(Unlock(g), after), Pack) == (g == Pack || after.pack)
    ensures Holds(after, State) == after.state && Holds(after, Database) == after.database
            && Holds(after, Pack) == after.pack
  {
    match g
    case State =>
    case Database =>
    case Pack =>
  }

  lemma PerformGuard(s: Store, id: nat)
    requires CanStep(s, id)
    ensures var i, next := s.threads[id].code.instr, Advance(s, id, s.threads[id].code.rest);
            && (i.Lock? ==> Perform(s, id) == next.(owners := s.owners[i.guard := id]))
            && (i.Unlock? ==> Perform(s, id) == next.(owners := s.owners - {i.guard}))
  {
  }

  lemma LockPlaced(s: Store, id: nat)
    requires Orderly(s) && CanStep(s, id) && s.threads[id].code.instr.Lock?
    ensures Placed(Perform(s, id), id, Thread(s.threads[id].code.rest, None))
    ensures Perform(s, id).threads == s.threads[id := Thread(s.threads[id].code.rest, None)]
  {
    Acting(s, id);
    PerformGuard(s, id);
    LockContext(s.threads[id].code.instr.guard, ContextOf(s.threads[id].code.rest));
    assert Holds(ContextOf(s.threads[id].code.rest), s.threads[id].code.instr.guard);
    hide Proper, ContextOf, Orderly, Nested, Before, Fits, Perform, Holds;
  }

  lemma UnlockPlaced(s: Store, id: nat)
    requires Orderly(s) && CanStep(s, id) && s.threads[id].code.instr.Unlock?
    ensures Placed(Perform(s, id), id, Thread(s.threads[id].code.rest, None))
    ensures Perform(s, id).threads == s.threads[id := Thread(s.threads[id].code.rest, None)]
  {
    Acting(s, id);
    PerformGuard(s, id);
    var g, thread := s.threads[id].code.instr.guard, Thread(s.threads[id].code.rest, None);
    UnlockContext(g, ContextOf(thread.code));
    assert !Holds(ContextOf(thread.code), g);
    OwnersWithout(s, g);
    hide Proper, ContextOf, Orderly, Nested, Before, Fits, Perform, Holds, KeepsWaiting, WaitsOn, OwnsAsHeld, Owned;
    var t := Perform(s, id);
    UnlockOwns(s, t, id, s.threads[id], thread, g, State);
    UnlockOwns(s, t, id, s.threads[id], thread, g, Database);
    UnlockOwns(s, t, id, s.threads[id], thread, g, Pack);
  }

  lemma OwnersWithout(s: Store, g: Guard)
    ensures forall t: Store, h :: t.owners == s.owners - {g} ==> Owned(t, h) == if h == g then None else Owned(s, h)
  {
  }

  lemma UnlockOwns(s: Store, t: Store, id: nat, before: Thread, after: Thread, g: Guard, h: Guard)
    requires OwnsAsHeld(s, id, before, h) && before.asleep.None? && after.asleep.None?
    requires if h == g then Owned(t, h).None? && !Holds(ContextOf(after.code), h) else Owned(t, h) == Owned(s, h)
    requires h != g ==> Holds(ContextOf(before.code), h) == Holds(ContextOf(after.code), h)
    ensures OwnsAsHeld(t, id, after, h)
  {
    hide Owned, ContextOf, Holds;
  }

  lemma LockKeeps(s: Store, id: nat)
    requires Orderly(s) && CanStep(s, id) && s.threads[id].code.instr.Lock?
    ensures Orderly(Perform(s, id))
  {
    LockPlaced(s, id);
    PerformGuard(s, id);
    hide Proper, ContextOf, Orderly, Placed, Perform, Undisturbed;
    var t := Perform(s, id);
    OwnersOnly(s, t, id, s.threads[id].code.instr.guard);
    QuietStep(s, t, id, t.threads[id]);
  }

  lemma UnlockKeeps(s: Store, id: nat)
    requires Orderly(s) && CanStep(s, id) && s.threads[id].code.instr.Unlock?
    ensures Orderly(Perform(s, id))
  {
    UnlockPlaced(s, id);
    HolderOwns(s, id);
    PerformGuard(s, id);
    hide Proper, ContextOf, Orderly, Placed, Perform, Undisturbed;
    var t := Perform(s, id);
    OwnersOnly(s, t, id, s.threads[id].code.instr.guard);
    QuietStep(s, t, id, t.threads[id]);
  }

  lemma HolderOwns(s: Store, id: nat)
    requires Orderly(s) && CanStep(s, id) && s.threads[id].code.instr.Unlock?
    ensures Owned(s, s.threads[id].code.instr.guard) == Some(id)
  {
    Acting(s, id);
    hide Proper, ContextOf, Orderly, Nested, Fits;
  }

  /** What a step that notifies nobody does when nothing holds it up. */
  function Through(s: Store, id: nat): Store
    requires CanStep(s, id)
  {
    var next := Advance(s, id, s.threads[id].code.rest);
    match s.threads[id].code.instr
    case EnterLease => next.(readers := s.readers + {id})
    case ClaimTransition => next.(transition := Some(id))
    case TakeConnection => next.(queries := s.queries + {id})
    case MarkClosed => next.(closed := true)
    case _ => next
  }

  /** Whether a step that may wait has to, and whether a closed store refuses it. */
  predicate MustWait(s: Store, i: Instr) {
    KeepsWaiting(s, i) && ((i.EnterLease? || i.AwaitNoTransition?) ==> !s.closed)
  }

  predicate Refused(s: Store, i: Instr) {
    (i.EnterLease? || i.AwaitNoTransition? || i.ClaimTransition?) && s.closed && !MustWait(s, i)
  }

  predicate Straight(i: Instr) {
    WaitsOn(i).Some? || i.Work? || i.MarkClosed?
  }

  lemma PerformStraight(s: Store, id: nat)
    requires CanStep(s, id) && Straight(s.threads[id].code.instr)
    ensures var i := s.threads[id].code.instr;
            Perform(s, id) == if MustWait(s, i) then Sleep(s, id, WaitsOn(i).GetOr(State))
                              else if Refused(s, i) then Advance(s, id, Do(Unlock(State), Done))
                              else Through(s, id)
  {
  }

  lemma ThroughQuiet(s: Store, id: nat)
    requires CanStep(s, id)
    requires var i := s.threads[id].code.instr;
             Straight(i) && ((i.EnterLease? || i.ClaimTransition?) ==> s.transition.None?)
    ensures var t := Through(s, id);
            && Undisturbed(s, t, id, None)
            && t.threads == s.threads[id := Thread(s.threads[id].code.rest, None)]
            && t.readers <= s.readers + {id} && t.queries <= s.queries + {id} && t.owners == s.owners
            && t.transition in {s.transition, Some(id), None} && t.publishing in {s.publishing, Some(id), None}
  {
    hide Perform, KeepsWaiting;
  }

  lemma EnterPlaced(s: Store, id: nat)
    requires Orderly(s) && CanStep(s, id) && s.threads[id].code.instr == EnterLease && s.transition.None?
    ensures Placed(Through(s, id), id, Thread(s.threads[id].code.rest, None))
  {
    Acting(s, id);
    hide Proper, ContextOf, Orderly, Nested, KeepsWaiting, WaitsOn, Owned, Perform, Rank;
  }

  lemma PassPlaced(s: Store, id: nat)
    requires Orderly(s) && CanStep(s, id) && s.threads[id].code.instr == AwaitNoTransition
    ensures Placed(Through(s, id), id, Thread(s.threads[id].code.rest, None))
  {
    Acting(s, id);
    hide Proper, ContextOf, Orderly, Nested, KeepsWaiting, WaitsOn, Owned, Perform, Rank;
  }

  lemma ClaimPlaced(s: Store, id: nat)
    requires Orderly(s) && CanStep(s, id) && s.threads[id].code.instr == ClaimTransition && s.transition.None?
    ensures Placed(Through(s, id), id, Thread(s.threads[id].code.rest, None))
  {
    Acting(s, id);
    hide Proper, ContextOf, Orderly, Nested, KeepsWaiting, WaitsOn, Owned, Perform, Rank;
  }

  lemma ReadersGonePlaced(s: Store, id: nat)
    requires Orderly(s) && CanStep(s, id) && s.threads[id].code.instr == AwaitNoReaders && s.readers == {}
    ensures Placed(Through(s, id), id, Thread(s.threads[id].code.rest, None))
  {
    Acting(s, id);
    hide Proper, ContextOf, Orderly, Nested, KeepsWaiting, WaitsOn, Owned, Perform, Rank;
  }

  lemma PublishedPlaced(s: Store, id: nat)
    requires Orderly(s) && CanStep(s, id) && s.threads[id].code.instr == AwaitPublished
    ensures Placed(Through(s, id), id, Thread(s.threads[id].code.rest, None))
  {
    Acting(s, id);
    hide Proper, ContextOf, Orderly, Nested, KeepsWaiting, WaitsOn, Owned, Perform, Rank;
  }

  lemma TakePlaced(s: Store, id: nat)
    requires Orderly(s) && CanStep(s, id) && s.threads[id].code.instr == TakeConnection
    ensures Placed(Through(s, id), id, Thread(s.threads[id].code.rest, None))
  {
    Acting(s, id);
    hide Proper, ContextOf, Orderly, Nested, KeepsWaiting, WaitsOn, Owned, Perform, Rank;
  }

  lemma QueriesGonePlaced(s: Store, id: nat)
    requires Orderly(s) && CanStep(s, id) && s.threads[id].code.instr == AwaitNoQueries
    ensures Placed(Through(s, id), id, Thread(s.threads[id].code.rest, None))
  {
    Acting(s, id);
    hide Proper, ContextOf, Orderly, Nested, KeepsWaiting, WaitsOn, Owned, Perform, Rank;
  }

  lemma WorkPlaced(s: Store, id: nat)
    requires Orderly(s) && CanStep(s, id) && (s.threads[id].code.instr.Work? || s.threads[id].code.instr.MarkClosed?)
    ensures Placed(Through(s, id), id, Thread(s.threads[id].code.rest, None))
  {
    Acting(s, id);
    hide Proper, ContextOf, Orderly, Nested, KeepsWaiting, WaitsOn, Owned, Perform, Rank;
  }

  lemma ThroughPlaced(s: Store, id: nat)
    requires Orderly(s) && CanStep(s, id) && Straight(s.threads[id].code.instr)
    requires !MustWait(s, s.threads[id].code.instr) && !Refused(s, s.threads[id].code.instr)
    ensures Placed(Through(s, id), id, Thread(s.threads[id].code.rest, None))
  {
    hide Orderly, Placed, Through, Proper, ContextOf;
    match s.threads[id].code.instr
    case EnterLease => EnterPlaced(s, id);
    case AwaitNoTransition => PassPlaced(s, id);
    case ClaimTransition => ClaimPlaced(s, id);
    case AwaitNoReaders => ReadersGonePlaced(s, id);
    case AwaitPublished => PublishedPlaced(s, id);
    case TakeConnection => TakePlaced(s, id);
    case AwaitNoQueries => QueriesGonePlaced(s, id);
    case Work => WorkPlaced(s, id);
    case MarkClosed => WorkPlaced(s, id);
  }

  lemma ThroughKeeps(s: Store, id: nat)
    requires Orderly(s) && CanStep(s, id) && Straight(s.threads[id].code.instr)
    requires !MustWait(s, s.threads[id].code.instr) && !Refused(s, s.threads[id].code.instr)
    ensures Orderly(Through(s, id))
  {
    ThroughPlaced(s, id);
    ThroughQuiet(s, id);
    hide Orderly, Placed, Through, Proper, ContextOf, Undisturbed;
    QuietStep(s, Through(s, id), id, Thread(s.threads[id].code.rest, None));
  }

  lemma RefusedUnengaged(s: Store, id: nat)
    requires Orderly(s) && CanStep(s, id) && Refused(s, s.threads[id].code.instr)
    ensures WaitsOn(s.threads[id].code.instr) == Some(State) && Unengaged(ContextOf(s.threads[id].code))
  {
    Acting(s, id);
    hide Proper, ContextOf, Orderly, Nested, Before;
  }

  lemma WaitReason(s: Store, i: Instr)
    ensures MustWait(s, i) ==> KeepsWaiting(s, i) && WaitsOn(i).Some?
    ensures Straight(i) <==> WaitsOn(i).Some? || i.Work? || i.MarkClosed?
  {
  }

  /** A step that may wait waits, is refused, or goes through. */
  lemma StraightKeeps(s: Store, id: nat)
    requires Orderly(s) && CanStep(s, id) && Straight(s.threads[id].code.instr)
    ensures Orderly(Perform(s, id))
  {
    hide Orderly, Through, Proper, ContextOf, Perform, MustWait, Refused, Straight, KeepsWaiting, Sleep, Advance;
    var i := s.threads[id].code.instr;
    PerformStraight(s, id);
    WaitReason(s, i);
    if MustWait(s, i) {
      SleepKeeps(s, id, WaitsOn(i).value);
    } else if Refused(s, i) {
      RefusedUnengaged(s, id);
      RefusedKeeps(s, id);
    } else {
      ThroughKeeps(s, id);
    }
  }

  lemma NotifyPlaced(s: Store, id: nat, thread: Thread, g: Guard)
    requires Placed(s, id, thread)
    ensures Placed(Notify(s, g), id, thread)
  {
    hide Proper, ContextOf;
  }

  function Leave(s: Store, id: nat): Store
    requires CanStep(s, id)
  {
    Advance(s, id, s.threads[id].code.rest).(readers := s.readers - {id})
  }

  lemma LeavePlaced(s: Store, id: nat)
    requires Orderly(s) && CanStep(s, id) && s.threads[id].code.instr == LeaveLease
    ensures Placed(Leave(s, id), id, Thread(s.threads[id].code.rest, None))
  {
    Acting(s, id);
    hide Proper, ContextOf, Orderly, Nested;
  }

  lemma PerformLeave(s: Store, id: nat)
    requires CanStep(s, id) && s.threads[id].code.instr == LeaveLease
    ensures Perform(s, id) == if Leave(s, id).readers == {} then Notify(Leave(s, id), State) else Leave(s, id)
  {
  }

  lemma LeaveUndisturbed(s: Store, id: nat)
    requires CanStep(s, id)
    ensures Leave(s, id).readers != {} ==> Undisturbed(s, Leave(s, id), id, None)
    ensures Undisturbed(s, Notify(Leave(s, id), State), id, Some(State))
  {
  }

  lemma LeaveKeeps(s: Store, id: nat)
    requires Orderly(s) && CanStep(s, id) && s.threads[id].code.instr == LeaveLease
    ensures Orderly(Perform(s, id))
  {
    LeavePlaced(s, id);
    PerformLeave(s, id);
    LeaveUndisturbed(s, id);
    var left, thread := Leave(s, id), Thread(s.threads[id].code.rest, None);
    NotifyPlaced(left, id, thread, State);
    hide Proper, ContextOf, Orderly, Placed, Perform, Undisturbed, Notify;
    if left.readers == {} {
      NotifyingStep(s, left, id, thread, State);
    } else {
      QuietStep(s, left, id, thread);
    }
  }

  function Return(s: Store, id: nat): Store
    requires CanStep(s, id)
  {
    Advance(s, id, s.threads[id].code.rest).(queries := s.queries - {id})
  }

  lemma ReturnPlaced(s: Store, id: nat)
    requires Orderly(s) && CanStep(s, id) && s.threads[id].code.instr == ReturnConnection
    ensures Placed(Return(s, id), id, Thread(s.threads[id].code.rest, None))
  {
    Acting(s, id);
    hide Proper, ContextOf, Orderly, Nested;
  }

  lemma PerformReturn(s: Store, id: nat)
    requires CanStep(s, id) && s.threads[id].code.instr == ReturnConnection
    ensures Perform(s, id) == if Return(s, id).queries == {} then Notify(Return(s, id), Database) else Return(s, id)
  {
  }

  lemma ReturnUndisturbed(s: Store, id: nat)
    requires CanStep(s, id)
    ensures Return(s, id).queries != {} ==> Undisturbed(s, Return(s, id), id, None)
    ensures Undisturbed(s, Notify(Return(s, id), Database), id, Some(Database))
  {
  }

  lemma ReturnKeeps(s: Store, id: nat)
    requires Orderly(s) && CanStep(s, id) && s.threads[id].code.instr == ReturnConnection
    ensures Orderly(Perform(s, id))
  {
    ReturnPlaced(s, id);
    PerformReturn(s, id);
    ReturnUndisturbed(s, id);
    var left, thread := Return(s, id), Thread(s.threads[id].code.rest, None);
    NotifyPlaced(left, id, thread, Database);
    hide Proper, ContextOf, Orderly, Placed, Perform, Undisturbed, Notify;
    if left.queries == {} {
      NotifyingStep(s, left, id, thread, Database);
    } else {
      QuietStep(s, left, id, thread);
    }
  }

  function Ended(s: Store, id: nat): Store
    requires CanStep(s, id)
  {
    Advance(s, id, s.threads[id].code.rest).(transition := None)
  }

  lemma EndedPlaced(s: Store, id: nat)
    requires Orderly(s) && CanStep(s, id) && s.threads[id].code.instr == EndTransition
    ensures Placed(Ended(s, id), id, Thread(s.threads[id].code.rest, None))
    ensures s.transition == Some(id)
  {
    Acting(s, id);
    hide Proper, ContextOf, Orderly, Nested, KeepsWaiting, WaitsOn;
  }

  lemma EndedUndisturbed(s: Store, id: nat)
    requires CanStep(s, id) && s.transition == Some(id)
    ensures Undisturbed(s, Notify(Ended(s, id), State), id, Some(State))
  {
  }

  lemma EndTransitionKeeps(s: Store, id: nat)
    requires Orderly(s) && CanStep(s, id) && s.threads[id].code.instr == EndTransition
    ensures Orderly(Perform(s, id))
  {
    var ended, thread := Ended(s, id), Thread(s.threads[id].code.rest, None);
    EndedPlaced(s, id);
    EndedUndisturbed(s, id);
    NotifyPlaced(ended, id, thread, State);
    assert Perform(s, id) == Notify(ended, State);
    hide Proper, ContextOf, Orderly, Placed, Perform, Undisturbed, Notify;
    NotifyingStep(s, ended, id, thread, State);
  }

  /** Only the thread in transition can be publishing. */
  lemma PublisherIs(s: Store, id: nat)
    requires Orderly(s) && s.transition == Some(id)
    ensures s.publishing.None? || s.publishing == Some(id)
  {
    hide Proper, ContextOf;
    if s.publishing.Some? {
      var u := s.publishing.value;
      assert Placed(s, u, s.threads[u]);
      ProperNested(s.threads[u].code);
    }
  }

  function Begun(s: Store, id: nat): Store
    requires CanStep(s, id)
  {
    Advance(s, id, s.threads[id].code.rest).(publishing := Some(id))
  }

  lemma BegunPlaced(s: Store, id: nat)
    requires Orderly(s) && CanStep(s, id) && s.threads[id].code.instr == BeginPublishing
    ensures Placed(Begun(s, id), id, Thread(s.threads[id].code.rest, None))
    ensures s.transition == Some(id)
  {
    Acting(s, id);
    hide Proper, ContextOf, Orderly, Nested, KeepsWaiting, WaitsOn;
  }

  lemma BegunUndisturbed(s: Store, id: nat)
    requires CanStep(s, id) && (s.publishing.None? || s.publishing == Some(id))
    ensures Undisturbed(s, Begun(s, id), id, None)
  {
  }

  lemma BeginPublishingKeeps(s: Store, id: nat)
    requires Orderly(s) && CanStep(s, id) && s.threads[id].code.instr == BeginPublishing
    ensures Orderly(Perform(s, id))
  {
    BegunPlaced(s, id);
    assert Perform(s, id) == Begun(s, id);
    hide Proper, ContextOf, Orderly, Placed, Perform, Undisturbed;
    PublisherIs(s, id);
    BegunUndisturbed(s, id);
    QuietStep(s, Begun(s, id), id, Thread(s.threads[id].code.rest, None));
  }

  function Published(s: Store, id: nat): Store
    requires CanStep(s, id)
  {
    Advance(s, id, s.threads[id].code.rest).(publishing := None)
  }

  lemma EndedPublishingPlaced(s: Store, id: nat)
    requires Orderly(s) && CanStep(s, id) && s.threads[id].code.instr == EndPublishing
    ensures Placed(Published(s, id), id, Thread(s.threads[id].code.rest, None))
    ensures s.publishing == Some(id)
  {
    Acting(s, id);
    hide Proper, ContextOf, Orderly, Nested, KeepsWaiting, WaitsOn;
  }

  lemma EndedPublishingUndisturbed(s: Store, id: nat)
    requires CanStep(s, id) && s.publishing == Some(id)
    ensures Undisturbed(s, Notify(Published(s, id), Database), id, Some(Database))
  {
  }

  lemma EndPublishingKeeps(s: Store, id: nat)
    requires Orderly(s) && CanStep(s, id) && s.threads[id].code.instr == EndPublishing
    ensures Orderly(Perform(s, id))
  {
    var ended, thread := Published(s, id), Thread(s.threads[id].code.rest, None);
    EndedPublishingPlaced(s, id);
    EndedPublishingUndisturbed(s, id);
    NotifyPlaced(ended, id, thread, Database);
    assert Perform(s, id) == Notify(ended, Database);
    hide Proper, ContextOf, Orderly, Placed, Perform, Undisturbed, Notify;
    NotifyingStep(s, ended, id, thread, Database);
  }

  lemma StepKeeps(s: Store, id: nat)
    requires Orderly(s) && CanStep(s, id)
    ensures Orderly(Perform(s, id))
  {
    hide Orderly, Perform;
    match s.threads[id].code.instr
    case Lock(_) => LockKeeps(s, id);
    case Unlock(_) => UnlockKeeps(s, id);
    case EnterLease => StraightKeeps(s, id);
    case LeaveLease => LeaveKeeps(s, id);
    case AwaitNoTransition => StraightKeeps(s, id);
    case ClaimTransition => StraightKeeps(s, id);
    case AwaitNoReaders => StraightKeeps(s, id);
    case EndTransition => EndTransitionKeeps(s, id);
    case AwaitPublished => StraightKeeps(s, id);
    case TakeConnection => StraightKeeps(s, id);
    case ReturnConnection => ReturnKeeps(s, id);
    case BeginPublishing => BeginPublishingKeeps(s, id);
    case AwaitNoQueries => StraightKeeps(s, id);
    case EndPublishing => EndPublishingKeeps(s, id);
    case MarkClosed => StraightKeeps(s, id);
    case Work => StraightKeeps(s, id);
  }

  /* ---- Progress. ---- */

  /** Whoever holds a guard can step, or waits for the holder of a guard further down the order. */
  lemma HolderSteps(s: Store, g: Guard) returns (who: nat)
    requires Orderly(s) && g in s.owners
    ensures CanStep(s, who)
    decreases 2 - Rank(g)
  {
    hide Proper, ContextOf, Before;
    var o := s.owners[g];
    assert Placed(s, o, s.threads[o]);
    who := o;
    HoldingMeansCode(s.threads[o].code, g);
    if !CanStep(s, o) {
      var h := s.threads[o].code.instr.guard;
      LockInOrder(s.threads[o].code, g);
      who := HolderSteps(s, h);
    }
  }

  lemma HoldingMeansCode(code: Code, g: Guard)
    requires Holds(ContextOf(code), g)
    ensures code.Do?
  {
  }

  lemma LockInOrder(code: Code, g: Guard)
    requires Proper(code) && code.Do? && code.instr.Lock? && Holds(ContextOf(code), g)
    ensures Rank(g) < Rank(code.instr.guard)
  {
    Unfold(code);
    hide Proper, ContextOf;
  }

  lemma AwakeSteps(s: Store, id: nat) returns (who: nat)
    requires Orderly(s) && id in s.threads && s.threads[id].asleep.None? && s.threads[id].code.Do?
    ensures CanStep(s, who)
  {
    who := id;
    if !CanStep(s, id) {
      who := HolderSteps(s, s.threads[id].code.instr.guard);
    }
  }

  lemma EngagedMeansCode(code: Code)
    requires Proper(code) && !Unengaged(ContextOf(code))
    ensures code.Do?
  {
  }

  /** A sleeper inside a lease waits for a publication. */
  lemma LeasedSleeper(code: Code)
    requires Proper(code) && code.Do? && ContextOf(code).leased && WaitsOn(code.instr).Some?
    ensures code.instr == AwaitPublished || code.instr == TakeConnection
  {
    Unfold(code);
    hide Proper, ContextOf;
  }

  /** A sleeper in a transition waits for readers or queries. */
  lemma TransitingSleeper(code: Code)
    requires Proper(code) && code.Do? && ContextOf(code).transiting && WaitsOn(code.instr).Some?
    ensures code.instr == AwaitNoReaders || code.instr == AwaitNoQueries
  {
    Unfold(code);
    hide Proper, ContextOf;
  }

  /** Publication happens only with zero state readers. */
  lemma PublishingWithoutReaders(s: Store)
    requires Orderly(s) && s.publishing.Some?
    ensures s.readers == {} && s.transition == s.publishing
  {
    hide Proper, ContextOf;
    var p := s.publishing.value;
    assert Placed(s, p, s.threads[p]);
    ProperNested(s.threads[p].code);
  }

  lemma QueriesAreReaders(s: Store)
    requires Orderly(s)
    ensures s.queries <= s.readers
  {
    hide Proper, ContextOf;
    forall id | id in s.queries ensures id in s.readers {
      assert Placed(s, id, s.threads[id]);
      ProperNested(s.threads[id].code);
    }
  }

  lemma ReaderAwake(s: Store, id: nat)
    requires Orderly(s) && id in s.readers
    ensures s.threads[id].asleep.None? && s.threads[id].code.Do?
  {
    hide Proper, ContextOf;
    assert Placed(s, id, s.threads[id]);
    EngagedMeansCode(s.threads[id].code);
    assert s.publishing.None? by {
      if s.publishing.Some? { PublishingWithoutReaders(s); }
    }
    if WaitsOn(s.threads[id].code.instr).Some? {
      LeasedSleeper(s.threads[id].code);
    }
  }

  lemma TransitionSteps(s: Store) returns (who: nat)
    requires Orderly(s) && s.transition.Some?
    ensures CanStep(s, who)
  {
    hide Proper, ContextOf, Nested;
    var o := s.transition.value;
    var t := s.threads[o];
    assert Placed(s, o, t);
    EngagedMeansCode(t.code);
    if t.asleep.None? {
      who := AwakeSteps(s, o);
    } else {
      TransitingSleeper(t.code);
      QueriesAreReaders(s);
      assert s.readers != {};
      var r :| r in s.readers;
      ReaderAwake(s, r);
      who := AwakeSteps(s, r);
    }
  }

  /** While some thread has work left, some thread can take a step. */
  lemma SomeoneSteps(s: Store, id: nat) returns (who: nat)
    requires Orderly(s) && id in s.threads && s.threads[id].code != Done
    ensures CanStep(s, who)
  {
    hide Proper, ContextOf;
    var t := s.threads[id];
    assert Placed(s, id, t);
    if t.asleep.None? {
      who := AwakeSteps(s, id);
    } else if s.transition.Some? {
      who := TransitionSteps(s);
    } else {
      assert s.publishing.None? by {
        if s.publishing.Some? { PublishingWithoutReaders(s); }
      }
      QueriesAreReaders(s);
      var r :| r in s.readers;
      ReaderAwake(s, r);
      who := AwakeSteps(s, r);
    }
  }

  lemma InitialOrderly(s: Store, programs: Code -> bool)
    requires Initial(s, programs)
    requires forall code :: programs(code) ==> Proper(code) && ContextOf(code) == IDLE
    ensures Orderly(s)
  {
    hide Proper, ContextOf;
  }

  lemma {:induction false} RunOrderly(run: seq<Store>, schedule: seq<nat>, i: nat)
    requires IsRun(run, schedule) && Orderly(run[0]) && i < |run|
    ensures Orderly(run[i])
  {
    hide Orderly, Perform;
    if i > 0 {
      RunOrderly(run, schedule, i - 1);
      StepKeeps(run[i - 1], schedule[i - 1]);
    }
  }

  /**
   * No reachable state is stuck, for any number of threads whose programs keep the discipline,
   * however their steps interleave.
   */
  lemma NeverStuck(run: seq<Store>, schedule: seq<nat>, programs: Code -> bool, i: nat)
    requires IsRun(run, schedule) && Initial(run[0], programs) && i < |run|
    requires forall code :: programs(code) ==> Proper(code) && ContextOf(code) == IDLE
    ensures !Stuck(run[i])
  {
    hide Proper, ContextOf, Orderly;
    InitialOrderly(run[0], programs);
    RunOrderly(run, schedule, i);
    if id :| id in run[i].threads && run[i].threads[id].code != Done {
      var who := SomeoneSteps(run[i], id);
    }
  }

  /* ---- Closing. ---- */

  /** Whoever closes the store has waited for its readers. */
  lemma ClosingWithoutReaders(s: Store, id: nat)
    requires Orderly(s) && CanStep(s, id) && s.threads[id].code.instr.MarkClosed?
    ensures s.readers == {}
  {
    var t := s.threads[id];
    assert Placed(s, id, t);
    Unfold(t.code);
    hide Proper, ContextOf, Orderly;
  }

  /** In a closed store nobody enters, starts a transition or opens it again. */
  lemma ClosedRefuses(s: Store, id: nat)
    requires CanStep(s, id) && s.closed
    ensures var t, instr := Perform(s, id), s.threads[id].code.instr;
            && t.closed && t.readers <= s.readers && (t.transition.Some? ==> t.transition == s.transition)
            && (instr.EnterLease? || instr.AwaitNoTransition? || (instr.ClaimTransition? && s.transition.None?) ==>
                  t.threads[id] == Thread(Do(Unlock(State), Done), None))
  {
    hide Notify;
    ClosedNotify(s, State);
    ClosedNotify(s, Database);
  }

  lemma ClosedNotify(s: Store, g: Guard)
    ensures forall t: Store :: var n := Notify(t, g);
              n.closed == t.closed && n.readers == t.readers && n.transition == t.transition
  {
  }

  /** Over every run, a closed store stays closed and never has a reader again. */
  lemma {:induction false} ClosedStaysEmpty(
    run: seq<Store>, schedule: seq<nat>, programs: Code -> bool, i: nat, j: nat)
    requires IsRun(run, schedule) && Initial(run[0], programs) && i <= j < |run| && run[i].closed
    requires forall code :: programs(code) ==> Proper(code) && ContextOf(code) == IDLE
    ensures run[j].closed && run[j].readers == {}
    decreases j, i
  {
    hide Proper, ContextOf, Orderly, Perform;
    InitialOrderly(run[0], programs);
    if i < j {
      ClosedStaysEmpty(run, schedule, programs, i, j - 1);
      ClosedRefuses(run[j - 1], schedule[j - 1]);
    } else {
      RunOrderly(run, schedule, j - 1);
      if run[j - 1].closed {
        ClosedStaysEmpty(run, schedule, programs, j - 1, j);
      } else {
        OnlyMarkCloses(run[j - 1], schedule[j - 1]);
        ClosingWithoutReaders(run[j - 1], schedule[j - 1]);
      }
    }
  }

  lemma OnlyMarkCloses(s: Store, id: nat)
    requires CanStep(s, id) && !s.closed && Perform(s, id).closed
    ensures s.threads[id].code.instr.MarkClosed? && Perform(s, id).readers == s.readers
  {
  }

  /* ---- Without transitions. ---- */

  /** Never starts a transition and never closes the store. */
  predicate Quiet(code: Code) {
    code.Do? ==> !code.instr.ClaimTransition? && !code.instr.MarkClosed? && Quiet(code.rest)
  }

  /** With no transition ever, waiting for its end is work like any other. */
  function Relaxed(code: Code): Code {
    match code
    case Done => Done
    case Do(i, rest) => Do(if i.AwaitNoTransition? then Work else i, Relaxed(rest))
  }

  function RelaxedThread(t: Thread): Thread {
    Thread(Relaxed(t.code), t.asleep)
  }

  function RelaxedThreads(threads: map<nat, Thread>): (relaxed: map<nat, Thread>)
    ensures relaxed.Keys == threads.Keys && forall id :: id in threads ==> relaxed[id] == RelaxedThread(threads[id])
  {
    map id | id in threads :: RelaxedThread(threads[id])
  }

  function RelaxedStore(s: Store): Store {
    s.(threads := RelaxedThreads(s.threads))
  }

  ghost predicate Calm(s: Store) {
    && s.transition.None? && !s.closed
    && (forall id :: id in s.threads ==> Quiet(s.threads[id].code))
    && (forall id :: id in s.threads && s.threads[id].asleep.Some? ==>
          s.threads[id].code.Do? && !s.threads[id].code.instr.AwaitNoTransition?)
  }

  lemma {:induction false} RelaxedProper(code: Code)
    requires Proper(code)
    ensures Proper(Relaxed(code)) && ContextOf(Relaxed(code)) == ContextOf(code)
  {
    if code.Do? { RelaxedProper(code.rest); }
  }

  lemma RelaxedSteps(s: Store, id: nat)
    ensures CanStep(RelaxedStore(s), id) <==> CanStep(s, id)
  {
  }

  lemma RelaxedUpdate(threads: map<nat, Thread>, id: nat, t: Thread)
    ensures RelaxedThreads(threads[id := t]) == RelaxedThreads(threads)[id := RelaxedThread(t)]
  {
    hide RelaxedThread;
  }

  lemma RelaxedNotify(s: Store, g: Guard)
    ensures RelaxedStore(Notify(s, g)) == Notify(RelaxedStore(s), g)
  {
    forall t: Thread ensures RelaxedThread(Woken(t, g)) == Woken(RelaxedThread(t), g) {
    }
    hide RelaxedThread, Woken;
    var left, right := RelaxedStore(Notify(s, g)).threads, Notify(RelaxedStore(s), g).threads;
    assert left.Keys == right.Keys;
    forall id | id in left ensures left[id] == right[id] {
    }
    assert left == right;
  }

  lemma RelaxedGuards(s: Store, id: nat)
    requires Calm(s) && CanStep(s, id)
    requires var i := s.threads[id].code.instr; i.Lock? || i.Unlock?
    ensures CanStep(RelaxedStore(s), id) && Perform(RelaxedStore(s), id) == RelaxedStore(Perform(s, id))
  {
    var code := s.threads[id].code;
    RelaxedUpdate(s.threads, id, Thread(code.rest, None));
    assert RelaxedThreads(s.threads)[id] == Thread(Relaxed(code), None);
    assert s.transition.None? && !s.closed;
    hide Notify, Quiet, RelaxedThreads, Calm;
  }

  lemma RelaxedWork(s: Store, id: nat)
    requires Calm(s) && CanStep(s, id)
    requires var i := s.threads[id].code.instr; i.Work? || i.AwaitNoTransition?
    ensures CanStep(RelaxedStore(s), id) && Perform(RelaxedStore(s), id) == RelaxedStore(Perform(s, id))
  {
    var code := s.threads[id].code;
    RelaxedUpdate(s.threads, id, Thread(code.rest, None));
    assert RelaxedThreads(s.threads)[id] == Thread(Relaxed(code), None);
    assert s.transition.None? && !s.closed;
    hide Notify, Quiet, RelaxedThreads, Calm;
  }

  lemma RelaxedBegin(s: Store, id: nat)
    requires Calm(s) && CanStep(s, id)
    requires var i := s.threads[id].code.instr; i.BeginPublishing?
    ensures CanStep(RelaxedStore(s), id) && Perform(RelaxedStore(s), id) == RelaxedStore(Perform(s, id))
  {
    var code := s.threads[id].code;
    RelaxedUpdate(s.threads, id, Thread(code.rest, None));
    assert RelaxedThreads(s.threads)[id] == Thread(Relaxed(code), None);
    assert s.transition.None? && !s.closed;
    hide Notify, Quiet, RelaxedThreads, Calm;
  }

  lemma RelaxedStateWait(s: Store, id: nat)
    requires Calm(s) && CanStep(s, id)
    requires var i := s.threads[id].code.instr; i.EnterLease? || i.AwaitNoReaders?
    ensures CanStep(RelaxedStore(s), id) && Perform(RelaxedStore(s), id) == RelaxedStore(Perform(s, id))
  {
    var code := s.threads[id].code;
    RelaxedUpdate(s.threads, id, Thread(code.rest, None));
    RelaxedUpdate(s.threads, id, Thread(code, Some(State)));
    assert RelaxedThreads(s.threads)[id] == Thread(Relaxed(code), None);
    assert s.transition.None? && !s.closed;
    hide Notify, Quiet, RelaxedThreads, Calm;
  }

  lemma RelaxedDatabaseWait(s: Store, id: nat)
    requires Calm(s) && CanStep(s, id)
    requires var i := s.threads[id].code.instr; i.AwaitPublished? || i.AwaitNoQueries?
    ensures CanStep(RelaxedStore(s), id) && Perform(RelaxedStore(s), id) == RelaxedStore(Perform(s, id))
  {
    var code := s.threads[id].code;
    RelaxedUpdate(s.threads, id, Thread(code.rest, None));
    RelaxedUpdate(s.threads, id, Thread(code, Some(Database)));
    assert RelaxedThreads(s.threads)[id] == Thread(Relaxed(code), None);
    assert s.transition.None? && !s.closed;
    hide Notify, Quiet, RelaxedThreads, Calm;
  }

  lemma RelaxedTake(s: Store, id: nat)
    requires Calm(s) && CanStep(s, id)
    requires var i := s.threads[id].code.instr; i.TakeConnection?
    ensures CanStep(RelaxedStore(s), id) && Perform(RelaxedStore(s), id) == RelaxedStore(Perform(s, id))
  {
    var code := s.threads[id].code;
    RelaxedUpdate(s.threads, id, Thread(code.rest, None));
    RelaxedUpdate(s.threads, id, Thread(code, Some(Database)));
    assert RelaxedThreads(s.threads)[id] == Thread(Relaxed(code), None);
    assert s.transition.None? && !s.closed;
    hide Notify, Quiet, RelaxedThreads, Calm;
  }

  /** Relaxed programs run alike. */
  lemma RelaxedPerform(s: Store, id: nat)
    requires Calm(s) && CanStep(s, id)
    ensures CanStep(RelaxedStore(s), id) && Perform(RelaxedStore(s), id) == RelaxedStore(Perform(s, id))
  {
    var code := s.threads[id].code;
    var next := Advance(s, id, code.rest);
    RelaxedUpdate(s.threads, id, Thread(code.rest, None));
    match code.instr
    case LeaveLease => RelaxedNotify(next.(readers := s.readers - {id}), State);
    case ReturnConnection => RelaxedNotify(next.(queries := s.queries - {id}), Database);
    case EndTransition => RelaxedNotify(next.(transition := None), State);
    case EndPublishing => RelaxedNotify(next.(publishing := None), Database);
    case Lock(_) => RelaxedGuards(s, id);
    case Unlock(_) => RelaxedGuards(s, id);
    case Work => RelaxedWork(s, id);
    case AwaitNoTransition => RelaxedWork(s, id);
    case BeginPublishing => RelaxedBegin(s, id);
    case EnterLease => RelaxedStateWait(s, id);
    case AwaitNoReaders => RelaxedStateWait(s, id);
    case AwaitPublished => RelaxedDatabaseWait(s, id);
    case TakeConnection => RelaxedTake(s, id);
    case AwaitNoQueries => RelaxedDatabaseWait(s, id);
    case ClaimTransition =>
    case MarkClosed =>
  }

  lemma CalmNotify(s: Store, g: Guard)
    requires Calm(s)
    ensures Calm(Notify(s, g))
  {
    forall t: Thread | Quiet(t.code) ensures Quiet(Woken(t, g).code) {
    }
    hide Quiet;
  }

  lemma CalmAdvance(s: Store, t: Store, id: nat)
    requires Calm(s) && CanStep(s, id) && t.transition.None? && !t.closed
    requires t.threads == s.threads[id := Thread(s.threads[id].code.rest, None)]
    ensures Calm(t)
  {
    assert Quiet(s.threads[id].code.rest);
    hide Quiet;
  }

  lemma CalmStep(s: Store, id: nat)
    requires Calm(s) && CanStep(s, id)
    ensures Calm(Perform(s, id))
  {
    var code := s.threads[id].code;
    assert Quiet(code);
    assert !code.instr.ClaimTransition? && !code.instr.MarkClosed?;
    var next := Advance(s, id, code.rest);
    match code.instr
    case LeaveLease =>
      var left := next.(readers := s.readers - {id});
      CalmAdvance(s, left, id);
      CalmNotify(left, State);
    case ReturnConnection =>
      var left := next.(queries := s.queries - {id});
      CalmAdvance(s, left, id);
      CalmNotify(left, Database);
    case EndTransition =>
      CalmAdvance(s, next.(transition := None), id);
      CalmNotify(next.(transition := None), State);
    case EndPublishing =>
      CalmAdvance(s, next.(publishing := None), id);
      CalmNotify(next.(publishing := None), Database);
    case _ => CalmQuietStep(s, id);
  }

  lemma CalmQuietStep(s: Store, id: nat)
    requires Calm(s) && CanStep(s, id)
    requires !s.threads[id].code.instr.LeaveLease? && !s.threads[id].code.instr.ReturnConnection?
    requires !s.threads[id].code.instr.EndTransition? && !s.threads[id].code.instr.EndPublishing?
    ensures Calm(Perform(s, id))
  {
    var code, t := s.threads[id].code, Perform(s, id);
    assert Quiet(code);
    assert !code.instr.ClaimTransition? && !code.instr.MarkClosed?;
    if t.threads == s.threads[id := Thread(code.rest, None)] {
      hide Quiet;
      assert t.transition.None? && !t.closed;
      hide Perform;
      CalmAdvance(s, t, id);
    } else {
      hide Quiet, Notify;
    }
  }

  lemma {:induction false} RunCalm(run: seq<Store>, schedule: seq<nat>, i: nat)
    requires IsRun(run, schedule) && Calm(run[0]) && i < |run|
    ensures Calm(run[i])
  {
    hide Calm, Perform;
    if i > 0 {
      RunCalm(run, schedule, i - 1);
      CalmStep(run[i - 1], schedule[i - 1]);
    }
  }

  function RelaxedRun(run: seq<Store>): (relaxed: seq<Store>)
    ensures |relaxed| == |run| && forall i :: 0 <= i < |run| ==> relaxed[i] == RelaxedStore(run[i])
  {
    seq(|run|, i requires 0 <= i < |run| => RelaxedStore(run[i]))
  }

  lemma RelaxedRuns(run: seq<Store>, schedule: seq<nat>)
    requires IsRun(run, schedule) && Calm(run[0])
    ensures IsRun(RelaxedRun(run), schedule)
  {
    hide Perform, CanStep, RelaxedStore, Calm;
    forall i | 0 <= i < |schedule|
      ensures CanStep(RelaxedRun(run)[i], schedule[i])
      ensures RelaxedRun(run)[i + 1] == Perform(RelaxedRun(run)[i], schedule[i])
    {
      RunCalm(run, schedule, i);
      RelaxedPerform(run[i], schedule[i]);
    }
  }

  lemma RelaxedStuck(s: Store)
    ensures Stuck(s) ==> Stuck(RelaxedStore(s))
  {
    hide CanStep;
    forall id ensures CanStep(RelaxedStore(s), id) <==> CanStep(s, id) {
      RelaxedSteps(s, id);
    }
    if id :| id in s.threads && s.threads[id].code != Done {
      assert RelaxedStore(s).threads[id].code != Done;
    }
  }

  /** Programs that never start a transition are never stuck, even if they wait for one within a lease. */
  lemma QuietNeverStuck(run: seq<Store>, schedule: seq<nat>, programs: Code -> bool, i: nat)
    requires IsRun(run, schedule) && Initial(run[0], programs) && i < |run|
    requires forall code :: programs(code) ==>
               Quiet(code) && Proper(Relaxed(code)) && ContextOf(Relaxed(code)) == IDLE
    ensures !Stuck(run[i])
  {
    hide Proper, ContextOf, Stuck, Perform, CanStep, Quiet, Relaxed;
    var disciplined := (code: Code) => Proper(code) && ContextOf(code) == IDLE;
    RelaxedRuns(run, schedule);
    assert Initial(RelaxedRun(run)[0], disciplined);
    NeverStuck(RelaxedRun(run), schedule, disciplined, i);
    RelaxedStuck(run[i]);
  }

  lemma QuietAround(rest: Code)
    requires Quiet(rest)
    ensures Quiet(Releasing(rest)) && Quiet(Glance(rest)) && Quiet(Entering(rest)) && Quiet(ReadingEpoch(rest))
  {
  }

  lemma QuietLeaving()
    ensures Quiet(Leaving()) && Quiet(EndingLease(true, Leaving())) && Quiet(EndingLease(false, Leaving()))
  {
    QuietAround(Leaving());
  }

  lemma QuietFetching(queried: bool, rest: Code)
    requires Quiet(rest)
    ensures Quiet(Fetching(queried, rest))
  {
    var returned := Do(Lock(Database), Do(ReturnConnection, Do(Unlock(Database), rest)));
    assert Quiet(returned);
    assert Quiet(Do(Unlock(Database), Do(Work, returned)));
  }

  lemma QuietIndexing(rest: Code)
    requires Quiet(rest)
    ensures Quiet(Indexing(rest))
  {
    assert Quiet(Do(Work, Do(ReturnConnection, Do(Unlock(Database), rest))));
  }

  lemma QuietPackedAudio(rest: Code)
    requires Quiet(rest)
    ensures Quiet(PackedAudioCode(rest))
  {
    assert Quiet(Do(Unlock(Pack), Do(Unlock(State), Do(Work, rest))));
  }

  lemma QuietReaders(m: Method)
    requires !Changes(m)
    ensures Quiet(Program(m))
  {
    QuietLeaving();
    hide Quiet, Entering, Glance, Releasing, ReadingEpoch, Fetching, Indexing, PackedAudioCode, Leaving;
    match m
    case Lookup(hit, queried, pack) =>
      var last := EndingLease(pack, Leaving());
      QuietFetching(queried, last);
      QuietAround(Fetching(queried, last));
      var rest := if hit then last else ReadingEpoch(Fetching(queried, last));
      QuietAround(rest);
      QuietAround(Releasing(rest));
      QuietAround(Glance(Releasing(rest)));
    case LookupUncached(queried, pack) =>
      var last := EndingLease(pack, Leaving());
      QuietFetching(queried, last);
      QuietAround(Fetching(queried, last));
      QuietAround(ReadingEpoch(Fetching(queried, last)));
      QuietAround(Releasing(ReadingEpoch(Fetching(queried, last))));
    case Rows(queried) => QuietRead(queried, Leaving());
    case BestAudioUrl(queried, found, pack) =>
      QuietAround(EndingLease(pack, Leaving()));
      QuietRead(queried, if found then Releasing(EndingLease(pack, Leaving())) else Leaving());
    case CandidatesPayload(queried, pack) =>
      QuietAround(EndingLease(pack, Leaving()));
      QuietRead(queried, Releasing(EndingLease(pack, Leaving())));
    case PathTarget(indexed, known, pack) =>
      QuietAround(EndingLease(pack, Leaving()));
      var found := if known then Releasing(EndingLease(pack, Leaving())) else Leaving();
      QuietAround(found);
      QuietIndexing(found);
      QuietAround(if indexed then Glance(found) else Indexing(found));
    case LeasedPackedAudio(pack) =>
      QuietDone();
      QuietPackedAudio(EndingLease(pack, Done));
    case StoreInfo =>
      QuietAround(Leaving());
      QuietAround(Releasing(Leaving()));
      QuietAround(Glance(Releasing(Leaving())));
    case LookupFirst(hit, queried, pack) =>
      QuietFetching(queried, EndingLease(pack, Leaving()));
      QuietPackedAudio(FirstAnswer(hit, queried, pack));
      QuietAround(PackedAudioCode(FirstAnswer(hit, queried, pack)));
      QuietAround(Glance(PackedAudioCode(FirstAnswer(hit, queried, pack))));
  }

  lemma QuietRead(queried: bool, rest: Code)
    requires Quiet(rest)
    ensures Quiet(Entering(ReadingEpoch(Fetching(queried, rest))))
  {
    hide Quiet, Entering, ReadingEpoch, Fetching;
    QuietFetching(queried, rest);
    QuietAround(Fetching(queried, rest));
    QuietAround(ReadingEpoch(Fetching(queried, rest)));
  }

  lemma QuietDone()
    ensures Quiet(EndingLease(true, Done)) && Quiet(EndingLease(false, Done))
  {
    assert Quiet(Done);
    QuietAround(Done);
  }

  /** `lookup_first` keeps the discipline as soon as there is no transition to wait for. */
  lemma FirstRelaxed(hit: bool, queried: bool, pack: bool)
    ensures Proper(Relaxed(Program(LookupFirst(hit, queried, pack))))
    ensures ContextOf(Relaxed(Program(LookupFirst(hit, queried, pack)))) == IDLE
  {
    hide *;
    var answer := FirstAnswer(hit, queried, pack);
    ProgramOfFirst(hit, queried, pack);
    FirstAnswerProper(hit, queried, pack);
    RelaxedProper(answer);
    RelaxedFirst(answer);
    SnapshotProper(Relaxed(answer));
    GlanceProper(Snapshot(Relaxed(answer)));
    EnteringProper(Glance(Snapshot(Relaxed(answer))));
  }

  lemma ProgramOfFirst(hit: bool, queried: bool, pack: bool)
    ensures Program(LookupFirst(hit, queried, pack))
         == Entering(Glance(PackedAudioCode(FirstAnswer(hit, queried, pack))))
  {
  }

  /** The pack snapshot of `lookup_first` when there is nothing to wait for. */
  function Snapshot(rest: Code): Code {
    Do(Lock(State), Do(Work, Do(Lock(Pack), Do(Unlock(Pack), Do(Unlock(State), Do(Work, rest))))))
  }

  lemma RelaxedDo(i: Instr, rest: Code)
    ensures Relaxed(Do(i, rest)) == Do(if i.AwaitNoTransition? then Work else i, Relaxed(rest))
  {
  }

  lemma RelaxedFirst(answer: Code)
    ensures Relaxed(Entering(Glance(PackedAudioCode(answer)))) == Entering(Glance(Snapshot(Relaxed(answer))))
  {
    var c0 := Do(Work, answer);
    RelaxedDo(Work, answer);
    var c1 := Do(Unlock(State), c0);
    RelaxedDo(Unlock(State), c0);
    var c2 := Do(Unlock(Pack), c1);
    RelaxedDo(Unlock(Pack), c1);
    var c3 := Do(Lock(Pack), c2);
    RelaxedDo(Lock(Pack), c2);
    var c4 := Do(AwaitNoTransition, c3);
    RelaxedDo(AwaitNoTransition, c3);
    RelaxedDo(Lock(State), c4);
    var snapshot := Do(Lock(State), c4);
    assert snapshot == PackedAudioCode(answer) && Relaxed(snapshot) == Snapshot(Relaxed(answer));
    RelaxedDo(Unlock(Database), snapshot);
    RelaxedDo(Lock(Database), Do(Unlock(Database), snapshot));
    RelaxedDo(Unlock(State), Glance(snapshot));
    RelaxedDo(EnterLease, Do(Unlock(State), Glance(snapshot)));
    RelaxedDo(Lock(State), Do(EnterLease, Do(Unlock(State), Glance(snapshot))));
  }

  lemma SnapshotProper(rest: Code)
    requires Proper(rest) && ContextOf(rest) == LEASED
    ensures Proper(Snapshot(rest)) && ContextOf(Snapshot(rest)) == LEASED
  {
    hide Proper, ContextOf;
    Prepend(Work, rest);
    var c0 := Do(Work, rest);
    Prepend(Unlock(State), c0);
    var c1 := Do(Unlock(State), c0);
    Prepend(Unlock(Pack), c1);
    var c2 := Do(Unlock(Pack), c1);
    Prepend(Lock(Pack), c2);
    var c3 := Do(Lock(Pack), c2);
    Prepend(Work, c3);
    var c4 := Do(Work, c3);
    Prepend(Lock(State), c4);
  }

  lemma FirstAnswerProper(hit: bool, queried: bool, pack: bool)
    ensures Proper(FirstAnswer(hit, queried, pack)) && ContextOf(FirstAnswer(hit, queried, pack)) == LEASED
  {
    hide Proper, ContextOf, Fetching, EndingLease, Leaving;
    LeavingProper();
    EndingLeaseProper(pack, Leaving());
    FetchingProper(queried, EndingLease(pack, Leaving()));
  }

  /* ---- The exception. ---- */

  /** Two threads, no query and no publication, in an open store. */
  function Pair(a: Thread, b: Thread, owners: map<Guard, nat>, readers: set<nat>, transition: Option<nat>): Store {
    Store(map[0 := a, 1 := b], owners, readers, {}, transition, None, false)
  }

  function Awake(code: Code): Thread {
    Thread(code, None)
  }

  lemma FirstSteps(i: Instr, rest: Code, b: Thread, owners: map<Guard, nat>, readers: set<nat>, transition: Option<nat>)
    requires i.Lock? ==> i.guard !in owners
    ensures var s := Pair(Awake(Do(i, rest)), b, owners, readers, transition);
            && CanStep(s, 0)
            && (i.Lock? ==> Perform(s, 0) == Pair(Awake(rest), b, owners[i.guard := 0], readers, transition))
            && (i.Unlock? ==> Perform(s, 0) == Pair(Awake(rest), b, owners - {i.guard}, readers, transition))
            && (i == EnterLease && transition.None? ==>
                  Perform(s, 0) == Pair(Awake(rest), b, owners, readers + {0}, transition))
            && (i == AwaitNoTransition && transition.Some? ==>
                  Perform(s, 0) == Pair(Thread(Do(i, rest), Some(State)), b, owners - {State}, readers, transition))
  {
    var s := Pair(Awake(Do(i, rest)), b, owners, readers, transition);
    assert s.threads[0 := Awake(rest)] == map[0 := Awake(rest), 1 := b];
    assert s.threads[0 := Thread(Do(i, rest), Some(State))] == map[0 := Thread(Do(i, rest), Some(State)), 1 := b];
  }

  lemma SecondSteps(
    i: Instr, rest: Code, a: Thread, owners: map<Guard, nat>, readers: set<nat>, transition: Option<nat>)
    requires i.Lock? ==> i.guard !in owners
    ensures var s := Pair(a, Awake(Do(i, rest)), owners, readers, transition);
            && CanStep(s, 1)
            && (i.Lock? ==> Perform(s, 1) == Pair(a, Awake(rest), owners[i.guard := 1], readers, transition))
            && (i == ClaimTransition && transition.None? ==>
                  Perform(s, 1) == Pair(a, Awake(rest), owners, readers, Some(1)))
            && (i == AwaitNoReaders && readers != {} ==>
                  Perform(s, 1) == Pair(a, Thread(Do(i, rest), Some(State)), owners - {State}, readers, transition))
  {
    var s := Pair(a, Awake(Do(i, rest)), owners, readers, transition);
    assert s.threads[1 := Awake(rest)] == map[0 := a, 1 := Awake(rest)];
    assert s.threads[1 := Thread(Do(i, rest), Some(State))] == map[0 := a, 1 := Thread(Do(i, rest), Some(State))];
  }

  lemma Extend(run: seq<Store>, schedule: seq<nat>, id: nat, t: Store)
    requires IsRun(run, schedule) && CanStep(run[|run| - 1], id) && Perform(run[|run| - 1], id) == t
    ensures IsRun(run + [t], schedule + [id])
  {
    hide Perform, CanStep;
  }

  /** The reader takes its lease and reads the epoch. */
  lemma ReaderLeases(afterEpoch: Code, b: Thread) returns (run: seq<Store>, schedule: seq<nat>)
    ensures IsRun(run, schedule)
    ensures run[0] == Pair(Awake(Entering(Glance(afterEpoch))), b, map[], {}, None)
    ensures run[|run| - 1] == Pair(Awake(afterEpoch), b, map[], {0}, None)
  {
    hide Perform, CanStep, IsRun, Pair, Awake;
    var inDatabase := Do(Unlock(Database), afterEpoch);
    var leased := Do(Lock(Database), inDatabase);
    var entered := Do(Unlock(State), leased);
    var entering := Do(EnterLease, entered);
    run, schedule := [Pair(Awake(Entering(Glance(afterEpoch))), b, map[], {}, None)], [];
    Alone(run[0]);
    FirstSteps(Lock(State), entering, b, map[], {}, None);
    var s1 := Pair(Awake(entering), b, map[State := 0], {}, None);
    Extend(run, schedule, 0, s1);
    run, schedule := run + [s1], schedule + [0];
    FirstSteps(EnterLease, entered, b, map[State := 0], {}, None);
    var nobody: set<nat> := {};
    assert nobody + {0} == {0};
    var s2 := Pair(Awake(entered), b, map[State := 0], {0}, None);
    Extend(run, schedule, 0, s2);
    run, schedule := run + [s2], schedule + [0];
    FirstSteps(Unlock(State), leased, b, map[State := 0], {0}, None);
    assert map[State := 0] - {State} == map[];
    var s3 := Pair(Awake(leased), b, map[], {0}, None);
    Extend(run, schedule, 0, s3);
    run, schedule := run + [s3], schedule + [0];
    FirstSteps(Lock(Database), inDatabase, b, map[], {0}, None);
    var s4 := Pair(Awake(inDatabase), b, map[Database := 0], {0}, None);
    Extend(run, schedule, 0, s4);
    run, schedule := run + [s4], schedule + [0];
    FirstSteps(Unlock(Database), afterEpoch, b, map[Database := 0], {0}, None);
    assert map[Database := 0] - {Database} == map[];
    var s5 := Pair(Awake(afterEpoch), b, map[], {0}, None);
    Extend(run, schedule, 0, s5);
    run, schedule := run + [s5], schedule + [0];
  }

  lemma Alone(s: Store)
    ensures IsRun([s], [])
  {
  }

  /** The writer starts a transition and waits for the reader; then the reader waits for the writer. */
  lemma BothWait(run: seq<Store>, schedule: seq<nat>, pass: Code, exclusive: Code)
    returns (longer: seq<Store>, schedule': seq<nat>)
    requires IsRun(run, schedule) && |run| > 0
    requires run[|run| - 1]
          == Pair(Awake(Do(Lock(State), Do(AwaitNoTransition, pass))),
                  Awake(Do(Lock(State), Do(ClaimTransition, Do(AwaitNoReaders, exclusive)))), map[], {0}, None)
    ensures IsRun(longer, schedule') && longer[0] == run[0]
    ensures longer[|longer| - 1]
         == Pair(Thread(Do(AwaitNoTransition, pass), Some(State)), Thread(Do(AwaitNoReaders, exclusive), Some(State)),
                 map[], {0}, Some(1))
  {
    hide Perform, CanStep, IsRun, Pair, Awake;
    var snapshot, waiting := Do(AwaitNoTransition, pass), Do(AwaitNoReaders, exclusive);
    var claiming := Do(ClaimTransition, waiting);
    var a, c := Awake(Do(Lock(State), snapshot)), Thread(waiting, Some(State));
    longer, schedule' := run, schedule;
    SecondSteps(Lock(State), claiming, a, map[], {0}, None);
    var s6 := Pair(a, Awake(claiming), map[State := 1], {0}, None);
    Extend(longer, schedule', 1, s6);
    longer, schedule' := longer + [s6], schedule' + [1];
    SecondSteps(ClaimTransition, waiting, a, map[State := 1], {0}, None);
    var s7 := Pair(a, Awake(waiting), map[State := 1], {0}, Some(1));
    Extend(longer, schedule', 1, s7);
    longer, schedule' := longer + [s7], schedule' + [1];
    SecondSteps(AwaitNoReaders, exclusive, a, map[State := 1], {0}, Some(1));
    assert map[State := 1] - {State} == map[];
    var s8 := Pair(a, c, map[], {0}, Some(1));
    Extend(longer, schedule', 1, s8);
    longer, schedule' := longer + [s8], schedule' + [1];
    FirstSteps(Lock(State), snapshot, c, map[], {0}, Some(1));
    var s9 := Pair(Awake(snapshot), c, map[State := 0], {0}, Some(1));
    Extend(longer, schedule', 0, s9);
    longer, schedule' := longer + [s9], schedule' + [0];
    FirstSteps(AwaitNoTransition, pass, c, map[State := 0], {0}, Some(1));
    assert map[State := 0] - {State} == map[];
    var s10 := Pair(Thread(snapshot, Some(State)), c, map[], {0}, Some(1));
    Extend(longer, schedule', 0, s10);
    longer, schedule' := longer + [s10], schedule' + [0];
  }

  lemma RunsNonempty(run: seq<Store>, schedule: seq<nat>)
    requires IsRun(run, schedule)
    ensures |run| > 0
  {
  }

  /**
   * `lookup_first` meeting any change: the reader waits for the transition to end while the
   * transition waits for the reader to leave.
   */
  lemma LookupFirstCanStick(hit: bool, queried: bool, pack: bool, m: Method)
    returns (run: seq<Store>, schedule: seq<nat>)
    requires Changes(m)
    ensures IsRun(run, schedule) && |run| > 0
    ensures run[0] == Pair(Awake(Program(LookupFirst(hit, queried, pack))), Awake(Program(m)), map[], {}, None)
    ensures Stuck(run[|run| - 1])
  {
    hide Perform, CanStep, IsRun, Pair, Stuck, FirstAnswer, Program, Entering, Glance;
    var afterEpoch := PackedAudioCode(FirstAnswer(hit, queried, pack));
    ProgramOfFirst(hit, queried, pack);
    var exclusive := ChangeBody(m);
    run, schedule := ReaderLeases(afterEpoch, Awake(Program(m)));
    RunsNonempty(run, schedule);
    run, schedule := BothWait(run, schedule, afterEpoch.rest.rest, exclusive);
    RunsNonempty(run, schedule);
    PairAsleep(afterEpoch.rest, Do(AwaitNoReaders, exclusive));
  }

  lemma PairAsleep(a: Code, b: Code)
    requires a.Do? && b.Do?
    ensures Stuck(Pair(Thread(a, Some(State)), Thread(b, Some(State)), map[], {0}, Some(1)))
  {
    AsleepTogether(Pair(Thread(a, Some(State)), Thread(b, Some(State)), map[], {0}, Some(1)), 0);
  }

  lemma ChangeBody(m: Method) returns (exclusive: Code)
    requires Changes(m)
    ensures Program(m) == Do(Lock(State), Do(ClaimTransition, Do(AwaitNoReaders, exclusive)))
  {
    exclusive := Program(m).rest.rest.rest;
  }

  /* ---- Exactly when threads can get stuck. ---- */

  function Running(methods: set<Method>): Code -> bool {
    (code: Code) => exists m: Method :: m in methods && code == Program(m)
  }

  /** Some threads running some of the methods reach a stuck state. */
  ghost predicate CanStick(methods: set<Method>) {
    exists run, schedule :: Sticks(run, schedule, methods)
  }

  ghost predicate Sticks(run: seq<Store>, schedule: seq<nat>, methods: set<Method>) {
    IsRun(run, schedule) && Initial(run[0], Running(methods)) && Stuck(run[|run| - 1])
  }

  lemma MeetingSticks(methods: set<Method>, f: Method, m: Method)
    requires f in methods && f.LookupFirst? && m in methods && Changes(m)
    ensures CanStick(methods)
  {
    hide Program, Stuck, IsRun, Changes, Initial, Pair, Awake;
    var run, schedule := LookupFirstCanStick(f.hit, f.queried, f.pack, m);
    assert Running(methods)(Program(f)) && Running(methods)(Program(m));
    StartOfPair(Program(f), Program(m), Running(methods));
    assert Sticks(run, schedule, methods);
  }

  lemma StartOfPair(a: Code, b: Code, programs: Code -> bool)
    requires programs(a) && programs(b)
    ensures Initial(Pair(Awake(a), Awake(b), map[], {}, None), programs)
  {
  }

  lemma DisciplineNeverSticks(methods: set<Method>)
    requires forall m :: m in methods ==> !m.LookupFirst?
    ensures !CanStick(methods)
  {
    hide Program, Proper, ContextOf, Stuck, Initial, IsRun;
    forall code | Running(methods)(code) ensures Proper(code) && ContextOf(code) == IDLE {
      var m: Method :| m in methods && code == Program(m);
      MethodsProper(m);
    }
    forall run, schedule ensures !Sticks(run, schedule, methods) {
      if Sticks(run, schedule, methods) {
        RunsNonempty(run, schedule);
        NeverStuck(run, schedule, Running(methods), |run| - 1);
      }
    }
  }

  lemma QuietNeverSticks(methods: set<Method>)
    requires forall m :: m in methods ==> !Changes(m)
    ensures !CanStick(methods)
  {
    hide Program, Changes, Proper, ContextOf, Relaxed, Quiet, Stuck, Initial, IsRun;
    forall code | Running(methods)(code)
      ensures Quiet(code) && Proper(Relaxed(code)) && ContextOf(Relaxed(code)) == IDLE
    {
      var m: Method :| m in methods && code == Program(m);
      QuietReaders(m);
      if m.LookupFirst? {
        FirstRelaxed(m.hit, m.queried, m.pack);
      } else {
        MethodsProper(m);
        RelaxedProper(code);
      }
    }
    forall run, schedule ensures !Sticks(run, schedule, methods) {
      if Sticks(run, schedule, methods) {
        RunsNonempty(run, schedule);
        QuietNeverStuck(run, schedule, Running(methods), |run| - 1);
      }
    }
  }

  /** A stuck state is reachable if and only if `lookup_first` may meet a change. */
  lemma SticksExactly(methods: set<Method>)
    ensures CanStick(methods) <==>
              (exists f :: f in methods && f.LookupFirst?) && (exists m :: m in methods && Changes(m))
  {
    hide CanStick, Changes;
    if f, m :| f in methods && f.LookupFirst? && m in methods && Changes(m) {
      MeetingSticks(methods, f, m);
    } else if exists m :: m in methods && Changes(m) {
      DisciplineNeverSticks(methods);
    } else {
      QuietNeverSticks(methods);
    }
  }

  lemma AsleepTogether(s: Store, someone: nat)
    requires someone in s.threads
    requires forall id :: id in s.threads ==> s.threads[id].asleep.Some? && s.threads[id].code.Do?
    ensures Stuck(s)
  {
    assert s.threads[someone].code != Done;
  }
}
