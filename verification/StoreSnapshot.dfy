/**
 * What lookups answer while the store is being changed under them: caches, epochs and the state
 * gate, over every interleaving of readers and writers.
 */
module StoreSnapshot {
  import opened Wrappers
  import opened Text
  import opened Compile
  import opened Selection

  datatype Endpoint = Lookup | LookupFirst | Candidates

  datatype Request = Request(endpoint: Endpoint, query: LookupRequest)

  /** Source ids with their configuration, in the order that ranks them. */
  type Sources = seq<(Text, Text)>

  /** The database, the active pack and the configured sources that belong together. */
  datatype Triple = Triple(db: seq<Row>, pack: Option<nat>, sources: Sources)

  type PathRows = map<(Text, Text), int>

  /** The pure parts of an answer. */
  datatype Env = Env(
    render: (Request, seq<Row>, Option<nat>, Sources) -> seq<byte>,
    index: seq<Row> -> PathRows,
    renderPath: ((Text, Text), PathRows, Option<nat>) -> seq<byte>)

  function RowsOf(db: seq<Row>, query: LookupRequest): seq<Row> {
    MatchingRows(db, query.expression, query.reading)
  }

  /** The answer computed without any cache. */
  function Uncached(now: Triple, request: Request, env: Env): seq<byte> {
    env.render(request, RowsOf(now.db, request.query), now.pack, now.sources)
  }

  function UncachedPath(now: Triple, path: (Text, Text), env: Env): seq<byte> {
    env.renderPath(path, env.index(now.db), now.pack)
  }

  /* ---- Threads. ---- */

  /** A thread inside its state lease, with the locals it has read so far. */
  datatype Reader =
    | Entered(request: Request)
    | AtEpoch(request: Request, dbEpoch: nat)
    | AtPack(request: Request, dbEpoch: nat, pack: Option<nat>, packEpoch: nat)
    | Fetched(request: Request, dbEpoch: nat, pack: Option<nat>, packEpoch: nat, rowEpoch: nat, rows: seq<Row>)
    | HasRows(request: Request, dbEpoch: nat, pack: Option<nat>, packEpoch: nat, rows: seq<Row>)
    | RowsRead(request: Request, rowEpoch: nat, rows: seq<Row>)
    | RowsSelected(request: Request, rows: seq<Row>)
    | Composed(request: Request, dbEpoch: nat, packEpoch: nat, response: seq<byte>)
    | Answered(request: Request, response: seq<byte>)
    | PathEntered(path: (Text, Text))
    | PathIndexed(path: (Text, Text), index: PathRows)
    | PathAnswered(path: (Text, Text), response: seq<byte>)

  datatype Micro =
    | SetDb(db: seq<Row>) | SetPack(pack: Option<nat>) | SetSources(sources: Sources)
    | BumpDbEpoch | BumpPackEpoch | ForgetPaths | ClearRows | ClearResponses

  datatype Change =
    | ReloadPack(pack: Option<nat>)
    | PublishDatabase(db: seq<Row>, replacement: Option<nat>)
    | ReplaceSources(sources: Sources)
    | CloseStore

  /** The statements each change runs inside its transition, in program order. */
  function Program(change: Change): seq<Micro> {
    match change
    case ReloadPack(pack) => [SetPack(pack), BumpPackEpoch, ClearResponses]
    case PublishDatabase(db, replacement) =>
      [ClearRows, ClearResponses, SetDb(db), BumpDbEpoch, ForgetPaths, ClearRows, ClearResponses,
       SetPack(replacement), BumpPackEpoch, ClearResponses]
    case ReplaceSources(sources) => [SetSources(sources), ForgetPaths, ClearResponses]
    case CloseStore =>
      [ClearRows, ClearResponses, ForgetPaths, BumpDbEpoch, SetPack(None), BumpPackEpoch, ClearRows, ClearResponses]
  }

  /** The triple a change asks for: what it replaces is replaced, the rest stays. */
  function Wanted(now: Triple, change: Change): Triple {
    match change
    case ReloadPack(pack) => Triple(now.db, pack, now.sources)
    case PublishDatabase(db, replacement) => Triple(db, replacement, now.sources)
    case ReplaceSources(sources) => Triple(now.db, now.pack, sources)
    case CloseStore => Triple(now.db, None, now.sources)
  }

  datatype Writer = NoWriter | Waiting(change: Change) | Working(rest: seq<Micro>)

  datatype Store = Store(
    now: Triple, dbEpoch: nat, packEpoch: nat,
    rowCache: map<(nat, Text, Option<Text>), seq<Row>>,
    responseCache: map<(nat, nat, Request), seq<byte>>,
    paths: Option<PathRows>,
    readers: map<nat, Reader>, writer: Writer)

  function RowKey(epoch: nat, query: LookupRequest): (nat, Text, Option<Text>) {
    (epoch, query.expression, query.reading)
  }

  function Execute(s: Store, micro: Micro): Store {
    match micro
    case SetDb(db) => s.(now := s.now.(db := db))
    case SetPack(pack) => s.(now := s.now.(pack := pack))
    case SetSources(sources) => s.(now := s.now.(sources := sources))
    case BumpDbEpoch => s.(dbEpoch := s.dbEpoch + 1)
    case BumpPackEpoch => s.(packEpoch := s.packEpoch + 1)
    case ForgetPaths => s.(paths := None)
    case ClearRows => s.(rowCache := map[])
    case ClearResponses => s.(responseCache := map[])
  }

  function ExecuteAll(s: Store, rest: seq<Micro>): Store
    decreases |rest|
  {
    if rest == [] then s else ExecuteAll(Execute(s, rest[0]), rest[1..])
  }

  /* ---- Steps. ---- */

  /** One statement of a reader; each runs under one of the store's guards. */
  ghost predicate ReaderStep(s: Store, t: Store, id: nat, env: Env)
    requires id in s.readers
  {
    match s.readers[id]
    case Entered(request) =>
      // Candidates are selected before the pack is looked at, and lookups the other way round.
      if request.endpoint != Candidates then t == s.(readers := s.readers[id := AtEpoch(request, s.dbEpoch)])
      else
        || (RowKey(s.dbEpoch, request.query) in s.rowCache
            && t == s.(readers := s.readers[id := RowsSelected(request, s.rowCache[RowKey(s.dbEpoch, request.query)])]))
        || t == s.(readers := s.readers[id := RowsRead(request, s.dbEpoch, RowsOf(s.now.db, request.query))])
    case RowsRead(request, re, rows) =>
      t == s.(readers := s.readers[id := RowsSelected(request, rows)],
              rowCache := s.rowCache[RowKey(re, request.query) := rows])
    case RowsSelected(request, rows) =>
      t == s.(readers := s.readers[id := HasRows(request, s.dbEpoch, s.now.pack, s.packEpoch, rows)])
    case AtEpoch(request, e) =>
      t == s.(readers := s.readers[id := AtPack(request, e, s.now.pack, s.packEpoch)])
    case AtPack(request, e, pack, pe) =>
      // A cached response ends the lookup,
      || ((e, pe, request) in s.responseCache
          && t == s.(readers := s.readers[id := Answered(request, s.responseCache[(e, pe, request)])]))
      // cached rows are used as they are,
      || (request.endpoint != LookupFirst && RowKey(s.dbEpoch, request.query) in s.rowCache
          && t == s.(readers := s.readers[id :=
                       HasRows(request, e, pack, pe, s.rowCache[RowKey(s.dbEpoch, request.query)])]))
      // and otherwise the database is read.
      || t == s.(readers := s.readers[id := Fetched(request, e, pack, pe, s.dbEpoch, RowsOf(s.now.db, request.query))])
    case Fetched(request, e, pack, pe, re, rows) =>
      t == s.(readers := s.readers[id := HasRows(request, e, pack, pe, rows)],
              rowCache := if request.endpoint == LookupFirst then s.rowCache
                          else s.rowCache[RowKey(re, request.query) := rows])
    case HasRows(request, e, pack, pe, rows) =>
      t == s.(readers := s.readers[id := Composed(request, e, pe, env.render(request, rows, pack, s.now.sources))])
    case Composed(request, e, pe, response) =>
      t == s.(readers := s.readers[id := Answered(request, response)],
              responseCache := if request.endpoint == Candidates then s.responseCache
                               else s.responseCache[(e, pe, request) := response])
    case PathEntered(path) =>
      var index := s.paths.GetOr(env.index(s.now.db));
      t == s.(readers := s.readers[id := PathIndexed(path, index)], paths := Some(index))
    case PathIndexed(path, index) =>
      t == s.(readers := s.readers[id := PathAnswered(path, env.renderPath(path, index, s.now.pack))])
    case Answered(_, _) => t == s.(readers := s.readers - {id})
    case PathAnswered(_, _) => t == s.(readers := s.readers - {id})
  }

  ghost predicate StillToReplace(rest: seq<Micro>) {
    exists i :: 0 <= i < |rest| && rest[i].SetDb?
  }

  ghost predicate WriterStep(s: Store, t: Store) {
    match s.writer
    case NoWriter => exists change :: t == s.(writer := Waiting(change))
    // The body starts once the last reader has left.
    case Waiting(change) => s.readers == map[] && t == s.(writer := Working(Program(change)))
    case Working(rest) =>
      if rest == [] then t == s.(writer := NoWriter)
      else
        || t == Execute(s, rest[0]).(writer := Working(rest[1..]))
        // A publication may be blocked, or fail to replace the file; nothing has been changed by then.
        || (StillToReplace(rest) && t == s.(writer := NoWriter))
  }

  /** The caches may drop entries at any time. */
  ghost predicate EvictStep(s: Store, t: Store) {
    && t.rowCache.Items <= s.rowCache.Items && t.responseCache.Items <= s.responseCache.Items
    && t == s.(rowCache := t.rowCache, responseCache := t.responseCache)
  }

  ghost predicate Step(s: Store, t: Store, env: Env) {
    || (exists id :: id in s.readers && ReaderStep(s, t, id, env))
    // New readers enter only while no transition is pending.
    || (s.writer == NoWriter && exists id: nat, request ::
          id !in s.readers && t == s.(readers := s.readers[id := Entered(request)]))
    || (s.writer == NoWriter && exists id: nat, path ::
          id !in s.readers && t == s.(readers := s.readers[id := PathEntered(path)]))
    || WriterStep(s, t)
    || EvictStep(s, t)
  }

  /* ---- The invariant. ---- */

  /** Nothing cached under the current epochs is stale. */
  ghost predicate Clean(s: Store, env: Env) {
    && (forall query: LookupRequest :: RowKey(s.dbEpoch, query) in s.rowCache ==>
          s.rowCache[RowKey(s.dbEpoch, query)] == RowsOf(s.now.db, query))
    && (forall request: Request :: (s.dbEpoch, s.packEpoch, request) in s.responseCache ==>
          s.responseCache[(s.dbEpoch, s.packEpoch, request)] == Uncached(s.now, request, env))
    && (s.paths.Some? ==> s.paths.value == env.index(s.now.db))
  }

  /** What a reader has read is still what is current. */
  ghost predicate Fresh(r: Reader, s: Store, env: Env) {
    match r
    case Entered(_) => true
    case AtEpoch(_, e) => e == s.dbEpoch
    case AtPack(_, e, pack, pe) => e == s.dbEpoch && pack == s.now.pack && pe == s.packEpoch
    case Fetched(request, e, pack, pe, re, rows) =>
      e == re == s.dbEpoch && pack == s.now.pack && pe == s.packEpoch && rows == RowsOf(s.now.db, request.query)
    case HasRows(request, e, pack, pe, rows) =>
      e == s.dbEpoch && pack == s.now.pack && pe == s.packEpoch && rows == RowsOf(s.now.db, request.query)
    case Composed(request, e, pe, response) =>
      e == s.dbEpoch && pe == s.packEpoch && response == Uncached(s.now, request, env)
    case RowsRead(request, re, rows) => re == s.dbEpoch && rows == RowsOf(s.now.db, request.query)
    case RowsSelected(request, rows) => rows == RowsOf(s.now.db, request.query)
    case Answered(request, response) => response == Uncached(s.now, request, env)
    case PathEntered(_) => true
    case PathIndexed(_, index) => index == env.index(s.now.db)
    case PathAnswered(path, response) => response == UncachedPath(s.now, path, env)
  }

  /** The database file is replaced before anything but clearing has been done. */
  ghost predicate DbFirst(rest: seq<Micro>) {
    forall i, j :: 0 <= j < i < |rest| && rest[i].SetDb? ==> rest[j].ClearRows? || rest[j].ClearResponses?
  }

  ghost predicate Consistent(s: Store, env: Env) {
    && (forall id :: id in s.readers ==> Fresh(s.readers[id], s, env))
    && (match s.writer
        case Working(rest) =>
          && s.readers == map[] && DbFirst(rest) && Clean(ExecuteAll(s, rest), env)
          && (forall i :: 0 <= i < |rest| && rest[i].SetDb? ==> Clean(s, env))
        case _ => Clean(s, env))
  }

  lemma {:induction false} ExecuteConcat(s: Store, left: seq<Micro>, right: seq<Micro>)
    ensures ExecuteAll(s, left + right) == ExecuteAll(ExecuteAll(s, left), right)
    decreases |left|
  {
    hide Execute;
    if left == [] {
      assert left + right == right;
    } else {
      assert (left + right)[1..] == left[1..] + right && (left + right)[0] == left[0];
      ExecuteConcat(Execute(s, left[0]), left[1..], right);
    }
  }

  lemma ExecuteThree(s: Store, a: Micro, b: Micro, c: Micro)
    ensures ExecuteAll(s, [a, b, c]) == Execute(Execute(Execute(s, a), b), c)
  {
    hide Execute;
    assert [a, b, c][1..] == [b, c] && [b, c][1..] == [c] && [c][1..] == [];
    assert ExecuteAll(Execute(Execute(s, a), b), [c]) == Execute(Execute(Execute(s, a), b), c);
  }

  lemma ExecuteTwo(s: Store, a: Micro, b: Micro)
    ensures ExecuteAll(s, [a, b]) == Execute(Execute(s, a), b)
  {
    hide Execute;
    assert [a, b][1..] == [b] && [b][1..] == [];
    assert ExecuteAll(Execute(s, a), [b]) == Execute(Execute(s, a), b);
  }

  lemma ExecuteOne(s: Store, a: Micro)
    ensures ExecuteAll(s, [a]) == Execute(s, a)
  {
  }

  lemma PublishResult(s: Store, db: seq<Row>, pack: Option<nat>)
    ensures ExecuteAll(s, Program(PublishDatabase(db, pack)))
         == s.(now := Triple(db, pack, s.now.sources), dbEpoch := s.dbEpoch + 1, packEpoch := s.packEpoch + 1,
               rowCache := map[], responseCache := map[], paths := None)
  {
    hide ExecuteAll, Execute;
    var end := [ClearResponses, SetPack(pack), BumpPackEpoch] + [ClearResponses];
    var rest := [BumpDbEpoch, ForgetPaths, ClearRows] + end;
    assert Program(PublishDatabase(db, pack)) == [ClearRows, ClearResponses, SetDb(db)] + rest;
    Unrolled(s, ClearRows, ClearResponses, SetDb(db), rest);
    ReplacesDb(s, db);
    var s1 := s.(now := s.now.(db := db), rowCache := map[], responseCache := map[]);
    Unrolled(s1, BumpDbEpoch, ForgetPaths, ClearRows, end);
    ForgetsPaths(s1);
    var s2 := s1.(dbEpoch := s.dbEpoch + 1, paths := None, rowCache := map[]);
    Unrolled(s2, ClearResponses, SetPack(pack), BumpPackEpoch, [ClearResponses]);
    ReplacesPack(s2, pack);
    ExecuteOne(s2.(responseCache := map[], now := s2.now.(pack := pack), packEpoch := s.packEpoch + 1), ClearResponses);
    ClearsResponses(s2.(responseCache := map[], now := s2.now.(pack := pack), packEpoch := s.packEpoch + 1));
  }

  lemma ReplacesDb(s: Store, db: seq<Row>)
    ensures Execute(Execute(Execute(s, ClearRows), ClearResponses), SetDb(db))
         == s.(now := s.now.(db := db), rowCache := map[], responseCache := map[])
  {
  }

  lemma ForgetsPaths(s: Store)
    ensures Execute(Execute(Execute(s, BumpDbEpoch), ForgetPaths), ClearRows)
         == s.(dbEpoch := s.dbEpoch + 1, paths := None, rowCache := map[])
  {
  }

  lemma ReplacesPack(s: Store, pack: Option<nat>)
    ensures Execute(Execute(Execute(s, ClearResponses), SetPack(pack)), BumpPackEpoch)
         == s.(responseCache := map[], now := s.now.(pack := pack), packEpoch := s.packEpoch + 1)
  {
  }

  lemma ClearsResponses(s: Store)
    ensures Execute(s, ClearResponses) == s.(responseCache := map[])
  {
  }

  lemma CloseResult(s: Store)
    ensures ExecuteAll(s, Program(CloseStore))
         == s.(now := s.now.(pack := None), dbEpoch := s.dbEpoch + 1, packEpoch := s.packEpoch + 1,
               rowCache := map[], responseCache := map[], paths := None)
  {
    hide ExecuteAll, Execute;
    assert Program(CloseStore)
        == [ClearRows, ClearResponses, ForgetPaths]
           + ([BumpDbEpoch, SetPack(None), BumpPackEpoch] + [ClearRows, ClearResponses]);
    Unrolled(s, ClearRows, ClearResponses, ForgetPaths,
             [BumpDbEpoch, SetPack(None), BumpPackEpoch] + [ClearRows, ClearResponses]);
    ClearsOut(s);
    var s1 := s.(paths := None, rowCache := map[], responseCache := map[]);
    Unrolled(s1, BumpDbEpoch, SetPack(None), BumpPackEpoch, [ClearRows, ClearResponses]);
    DropsPack(s1);
    ClearsAgain(s1.(dbEpoch := s.dbEpoch + 1, now := s.now.(pack := None), packEpoch := s.packEpoch + 1));
  }

  lemma ClearsOut(s: Store)
    ensures Execute(Execute(Execute(s, ClearRows), ClearResponses), ForgetPaths)
         == s.(paths := None, rowCache := map[], responseCache := map[])
  {
  }

  lemma DropsPack(s: Store)
    ensures Execute(Execute(Execute(s, BumpDbEpoch), SetPack(None)), BumpPackEpoch)
         == s.(dbEpoch := s.dbEpoch + 1, now := s.now.(pack := None), packEpoch := s.packEpoch + 1)
  {
  }

  lemma ClearsAgain(s: Store)
    ensures ExecuteAll(s, [ClearRows, ClearResponses]) == s.(rowCache := map[], responseCache := map[])
  {
    ExecuteTwo(s, ClearRows, ClearResponses);
  }

  lemma ReloadResult(s: Store, pack: Option<nat>)
    ensures ExecuteAll(s, Program(ReloadPack(pack)))
         == s.(now := Triple(s.now.db, pack, s.now.sources), packEpoch := s.packEpoch + 1, responseCache := map[])
  {
    ExecuteThree(s, SetPack(pack), BumpPackEpoch, ClearResponses);
    hide ExecuteAll;
  }

  lemma ReplaceResult(s: Store, sources: Sources)
    ensures ExecuteAll(s, Program(ReplaceSources(sources)))
         == s.(now := Triple(s.now.db, s.now.pack, sources), paths := None, responseCache := map[])
  {
    ExecuteThree(s, SetSources(sources), ForgetPaths, ClearResponses);
    hide ExecuteAll;
  }

  /** Each change ends with exactly what it asked for in place, under the epochs that it concerns. */
  lemma ProgramDelivers(s: Store, change: Change)
    ensures var t := ExecuteAll(s, Program(change));
            && t.now == Wanted(s.now, change) && t.readers == s.readers
            && t.dbEpoch == s.dbEpoch + (if change.PublishDatabase? || change.CloseStore? then 1 else 0)
            && t.packEpoch == s.packEpoch + (if change.ReplaceSources? then 0 else 1)
  {
    match change {
      case ReloadPack(pack) => ReloadResult(s, pack);
      case ReplaceSources(sources) => ReplaceResult(s, sources);
      case PublishDatabase(db, replacement) => PublishResult(s, db, replacement);
      case CloseStore => CloseResult(s);
    }
    hide ExecuteAll, Program;
  }

  /** Whatever a change does on the way, it ends with caches that are right for the new triple. */
  lemma ProgramCleans(s: Store, change: Change, env: Env)
    requires Clean(s, env)
    ensures Clean(ExecuteAll(s, Program(change)), env)
  {
    match change
    case ReloadPack(pack) =>
      ReloadResult(s, pack);
      hide ExecuteAll, Program;
    case ReplaceSources(sources) =>
      ReplaceResult(s, sources);
      hide ExecuteAll, Program;
    case PublishDatabase(db, replacement) =>
      PublishResult(s, db, replacement);
      hide ExecuteAll, Program;
    case CloseStore =>
      CloseResult(s);
      hide ExecuteAll, Program;
  }

  lemma ProgramsReplaceFirst(change: Change)
    ensures DbFirst(Program(change))
  {
  }

  lemma Unrolled(s: Store, a: Micro, b: Micro, c: Micro, rest: seq<Micro>)
    ensures ExecuteAll(s, [a, b, c] + rest) == ExecuteAll(Execute(Execute(Execute(s, a), b), c), rest)
  {
    hide Execute;
    ExecuteConcat(s, [a, b, c], rest);
    ExecuteThree(s, a, b, c);
  }

  /* ---- Every step keeps it. ---- */

  /** Readers never change what is current. */
  lemma ReaderKeepsTriple(s: Store, t: Store, id: nat, env: Env)
    requires id in s.readers && ReaderStep(s, t, id, env)
    ensures t.now == s.now && t.dbEpoch == s.dbEpoch && t.packEpoch == s.packEpoch && t.writer == s.writer
    ensures forall other :: other in s.readers && other != id ==>
              other in t.readers && t.readers[other] == s.readers[other]
    ensures forall other :: other in t.readers ==> other in s.readers
  {
  }

  lemma ReaderStaysFresh(s: Store, t: Store, id: nat, env: Env)
    requires id in s.readers && ReaderStep(s, t, id, env)
    requires Fresh(s.readers[id], s, env) && Clean(s, env)
    ensures Clean(t, env)
    ensures id in t.readers ==> Fresh(t.readers[id], t, env)
  {
    ReaderKeepsClean(s, t, id, env);
    ReaderReadsFresh(s, t, id, env);
  }

  lemma ReaderKeepsClean(s: Store, t: Store, id: nat, env: Env)
    requires id in s.readers && ReaderStep(s, t, id, env)
    requires Fresh(s.readers[id], s, env) && Clean(s, env)
    ensures Clean(t, env)
  {
    hide Uncached, UncachedPath, RowsOf, Clean;
    match s.readers[id]
    case Fetched(request, e, pack, pe, re, rows) => RowsCached(s, t, request, rows, env);
    case RowsRead(request, re, rows) => RowsCached(s, t, request, rows, env);
    case Composed(request, e, pe, response) => ResponseCached(s, t, request, response, env);
    case PathEntered(path) => PathsCached(s, t, env);
    case _ => NothingCached(s, t, env);
  }

  lemma RowsCached(s: Store, t: Store, request: Request, rows: seq<Row>, env: Env)
    requires Clean(s, env) && rows == RowsOf(s.now.db, request.query)
    requires t == s.(readers := t.readers, rowCache := t.rowCache)
    requires t.rowCache == s.rowCache || t.rowCache == s.rowCache[RowKey(s.dbEpoch, request.query) := rows]
    ensures Clean(t, env)
  {
    hide Uncached, UncachedPath, RowsOf;
    forall query: LookupRequest | RowKey(s.dbEpoch, query) == RowKey(s.dbEpoch, request.query)
      ensures RowsOf(s.now.db, query) == rows
    {
      RowsByKey(s.now.db, query, request.query);
    }
  }

  lemma ResponseCached(s: Store, t: Store, request: Request, response: seq<byte>, env: Env)
    requires Clean(s, env) && response == Uncached(s.now, request, env)
    requires t == s.(readers := t.readers, responseCache := t.responseCache)
    requires t.responseCache == s.responseCache
          || t.responseCache == s.responseCache[(s.dbEpoch, s.packEpoch, request) := response]
    ensures Clean(t, env)
  {
    hide Uncached, UncachedPath, RowsOf;
  }

  lemma PathsCached(s: Store, t: Store, env: Env)
    requires Clean(s, env) && t == s.(readers := t.readers, paths := Some(s.paths.GetOr(env.index(s.now.db))))
    ensures Clean(t, env)
  {
    hide Uncached, UncachedPath, RowsOf;
  }

  lemma NothingCached(s: Store, t: Store, env: Env)
    requires Clean(s, env) && t == s.(readers := t.readers)
    ensures Clean(t, env)
  {
    hide Uncached, UncachedPath, RowsOf;
  }

  lemma ReaderReadsFresh(s: Store, t: Store, id: nat, env: Env)
    requires id in s.readers && ReaderStep(s, t, id, env)
    requires Fresh(s.readers[id], s, env) && Clean(s, env)
    ensures id in t.readers ==> Fresh(t.readers[id], t, env)
  {
    hide Uncached, UncachedPath, RowsOf;
    match s.readers[id]
    case HasRows(request, e, pack, pe, rows) => RenderedIsUncached(s.now, request, env);
    case PathIndexed(path, index) => RenderedPathIsUncached(s.now, path, env);
    case _ =>
  }

  lemma RowsByKey(db: seq<Row>, query: LookupRequest, other: LookupRequest)
    requires RowKey(0, query) == RowKey(0, other)
    ensures RowsOf(db, query) == RowsOf(db, other)
  {
  }

  lemma RenderedIsUncached(now: Triple, request: Request, env: Env)
    ensures Uncached(now, request, env) == env.render(request, RowsOf(now.db, request.query), now.pack, now.sources)
  {
  }

  lemma RenderedPathIsUncached(now: Triple, path: (Text, Text), env: Env)
    ensures UncachedPath(now, path, env) == env.renderPath(path, env.index(now.db), now.pack)
  {
  }

  lemma FreshIgnoresCaches(r: Reader, s: Store, t: Store, env: Env)
    requires t.now == s.now && t.dbEpoch == s.dbEpoch && t.packEpoch == s.packEpoch
    ensures Fresh(r, s, env) ==> Fresh(r, t, env)
  {
  }

  lemma ReaderStepKeeps(s: Store, t: Store, id: nat, env: Env)
    requires Consistent(s, env) && id in s.readers && ReaderStep(s, t, id, env)
    ensures Consistent(t, env)
  {
    hide Fresh, Clean, ExecuteAll, DbFirst;
    ReaderKeepsTriple(s, t, id, env);
    ReaderStaysFresh(s, t, id, env);
    forall other | other in t.readers ensures Fresh(t.readers[other], t, env) {
      if other != id { FreshIgnoresCaches(s.readers[other], s, t, env); }
    }
    hide ReaderStep;
  }

  lemma WaitingKeeps(s: Store, change: Change, env: Env)
    requires Consistent(s, env) && s.writer == Waiting(change) && s.readers == map[]
    ensures Consistent(s.(writer := Working(Program(change))), env)
  {
    hide Clean, Program, Fresh, ExecuteAll, DbFirst;
    ProgramCleans(s, change, env);
    ProgramsReplaceFirst(change);
    ExecuteIgnoresWriter(s, Working(Program(change)), Program(change));
    CleanIgnoresWriter(s, Working(Program(change)), env);
    CleanIgnoresWriter(ExecuteAll(s, Program(change)), Working(Program(change)), env);
  }

  lemma CleanIgnoresWriter(s: Store, writer: Writer, env: Env)
    ensures Clean(s.(writer := writer), env) <==> Clean(s, env)
  {
    hide Uncached, RowsOf;
  }

  lemma ExecuteKeepsReaders(s: Store, micro: Micro)
    ensures Execute(s, micro).readers == s.readers && Execute(s, micro).writer == s.writer
  {
  }

  lemma WorkingKeeps(s: Store, rest: seq<Micro>, env: Env)
    requires Consistent(s, env) && s.writer == Working(rest) && rest != []
    ensures Consistent(Execute(s, rest[0]).(writer := Working(rest[1..])), env)
  {
    var s1, writer := Execute(s, rest[0]), Working(rest[1..]);
    assert ExecuteAll(s, rest) == ExecuteAll(s1, rest[1..]);
    StillUntouched(s, rest, env);
    hide Clean, Fresh, ExecuteAll, DbFirst, Execute;
    ExecuteKeepsReaders(s, rest[0]);
    ExecuteIgnoresWriter(s1, writer, rest[1..]);
    CleanIgnoresWriter(s1, writer, env);
    CleanIgnoresWriter(ExecuteAll(s1, rest[1..]), writer, env);
  }

  lemma WriterStepKeeps(s: Store, t: Store, env: Env)
    requires Consistent(s, env) && WriterStep(s, t)
    ensures Consistent(t, env)
  {
    hide Fresh, Program, Clean, Execute, DbFirst;
    match s.writer
    case NoWriter =>
      CleanIgnoresWriter(s, t.writer, env);
      forall id | id in t.readers ensures Fresh(t.readers[id], t, env) {
        FreshIgnoresCaches(s.readers[id], s, t, env);
      }
    case Waiting(change) => WaitingKeeps(s, change, env);
    case Working(rest) =>
      CleanIgnoresWriter(s, NoWriter, env);
      if rest != [] && t == Execute(s, rest[0]).(writer := Working(rest[1..])) {
        WorkingKeeps(s, rest, env);
      }
  }

  lemma StillUntouched(s: Store, rest: seq<Micro>, env: Env)
    requires rest != [] && DbFirst(rest)
    requires forall i :: 0 <= i < |rest| && rest[i].SetDb? ==> Clean(s, env)
    ensures DbFirst(rest[1..])
    ensures forall i :: 0 <= i < |rest[1..]| && rest[1..][i].SetDb? ==> Clean(Execute(s, rest[0]), env)
  {
    forall i | 0 <= i < |rest[1..]| && rest[1..][i].SetDb? ensures Clean(Execute(s, rest[0]), env) {
      assert rest[i + 1].SetDb?;
    }
  }

  /** The statements of a change do not look at the writer's own position. */
  lemma {:induction false} ExecuteIgnoresWriter(s: Store, writer: Writer, rest: seq<Micro>)
    ensures ExecuteAll(s.(writer := writer), rest) == ExecuteAll(s, rest).(writer := writer)
    decreases |rest|
  {
    if rest != [] {
      OneIgnoresWriter(s, writer, rest[0]);
      hide Execute;
      ExecuteIgnoresWriter(Execute(s, rest[0]), writer, rest[1..]);
    }
  }

  lemma OneIgnoresWriter(s: Store, writer: Writer, micro: Micro)
    ensures Execute(s.(writer := writer), micro) == Execute(s, micro).(writer := writer)
  {
  }

  lemma EvictStepKeeps(s: Store, t: Store, env: Env)
    requires Consistent(s, env) && EvictStep(s, t)
    ensures Consistent(t, env)
  {
    hide Uncached, RowsOf, DbFirst;
    forall id | id in t.readers ensures Fresh(t.readers[id], t, env) {
      FreshIgnoresCaches(s.readers[id], s, t, env);
    }
    CleanAfterEviction(s, t, env);
    if s.writer.Working? {
      EvictionPersists(s, t, s.writer.rest, env);
    }
  }

  /** A cache holding fewer of the same entries. */
  ghost predicate Fewer(s: Store, t: Store) {
    && (forall key :: key in t.rowCache ==> key in s.rowCache && t.rowCache[key] == s.rowCache[key])
    && (forall key :: key in t.responseCache ==> key in s.responseCache && t.responseCache[key] == s.responseCache[key])
    && t == s.(rowCache := t.rowCache, responseCache := t.responseCache)
  }

  lemma EvictedFewer(s: Store, t: Store)
    requires EvictStep(s, t)
    ensures Fewer(s, t)
  {
    forall key | key in t.rowCache ensures key in s.rowCache && t.rowCache[key] == s.rowCache[key] {
      assert (key, t.rowCache[key]) in t.rowCache.Items;
    }
    forall key | key in t.responseCache ensures key in s.responseCache && t.responseCache[key] == s.responseCache[key] {
      assert (key, t.responseCache[key]) in t.responseCache.Items;
    }
  }

  lemma FewerClean(s: Store, t: Store, env: Env)
    requires Fewer(s, t)
    ensures Clean(s, env) ==> Clean(t, env)
  {
    hide Uncached, RowsOf;
  }

  lemma CleanAfterEviction(s: Store, t: Store, env: Env)
    requires EvictStep(s, t)
    ensures Clean(s, env) ==> Clean(t, env)
  {
    EvictedFewer(s, t);
    FewerClean(s, t, env);
  }

  lemma FewerExecute(s: Store, t: Store, micro: Micro)
    requires Fewer(s, t)
    ensures Fewer(Execute(s, micro), Execute(t, micro))
  {
  }

  lemma {:induction false} FewerPersists(s: Store, t: Store, rest: seq<Micro>)
    requires Fewer(s, t)
    ensures Fewer(ExecuteAll(s, rest), ExecuteAll(t, rest))
    decreases |rest|
  {
    hide Execute, Fewer;
    if rest != [] {
      FewerExecute(s, t, rest[0]);
      FewerPersists(Execute(s, rest[0]), Execute(t, rest[0]), rest[1..]);
    }
  }

  lemma EvictionPersists(s: Store, t: Store, rest: seq<Micro>, env: Env)
    requires EvictStep(s, t)
    ensures Clean(ExecuteAll(s, rest), env) ==> Clean(ExecuteAll(t, rest), env)
  {
    EvictedFewer(s, t);
    FewerPersists(s, t, rest);
    FewerClean(ExecuteAll(s, rest), ExecuteAll(t, rest), env);
  }

  lemma EnterKeeps(s: Store, id: nat, r: Reader, env: Env)
    requires Consistent(s, env) && s.writer == NoWriter && (r.Entered? || r.PathEntered?)
    ensures Consistent(s.(readers := s.readers[id := r]), env)
  {
    hide Uncached, UncachedPath, RowsOf;
    var t := s.(readers := s.readers[id := r]);
    forall other | other in t.readers ensures Fresh(t.readers[other], t, env) {
      if other != id { FreshIgnoresCaches(s.readers[other], s, t, env); }
    }
  }

  lemma StepKeeps(s: Store, t: Store, env: Env)
    requires Consistent(s, env) && Step(s, t, env)
    ensures Consistent(t, env)
  {
    hide Consistent, ReaderStep, WriterStep, EvictStep;
    if id :| id in s.readers && ReaderStep(s, t, id, env) {
      ReaderStepKeeps(s, t, id, env);
    } else if s.writer == NoWriter && exists id: nat, request ::
        id !in s.readers && t == s.(readers := s.readers[id := Entered(request)])
    {
      var id: nat, request :| id !in s.readers && t == s.(readers := s.readers[id := Entered(request)]);
      EnterKeeps(s, id, Entered(request), env);
    } else if s.writer == NoWriter && exists id: nat, path ::
        id !in s.readers && t == s.(readers := s.readers[id := PathEntered(path)])
    {
      var id: nat, path :| id !in s.readers && t == s.(readers := s.readers[id := PathEntered(path)]);
      EnterKeeps(s, id, PathEntered(path), env);
    } else if WriterStep(s, t) {
      WriterStepKeeps(s, t, env);
    } else {
      EvictStepKeeps(s, t, env);
    }
  }

  /* ---- Every interleaving. ---- */

  function Opened(now: Triple): Store {
    Store(now, 0, 0, map[], map[], None, map[], NoWriter)
  }

  ghost predicate IsRun(run: seq<Store>, now: Triple, env: Env) {
    && run != [] && run[0] == Opened(now)
    && (forall i :: 0 <= i < |run| - 1 ==> Step(run[i], run[i + 1], env))
  }

  lemma OpenedConsistent(now: Triple, env: Env)
    ensures Consistent(Opened(now), env)
  {
  }

  lemma {:induction false} RunConsistent(run: seq<Store>, now: Triple, env: Env, i: nat)
    requires IsRun(run, now, env) && i < |run|
    ensures Consistent(run[i], env)
  {
    hide Consistent, Step;
    if i == 0 {
      OpenedConsistent(now, env);
    } else {
      RunConsistent(run, now, env, i - 1);
      StepKeeps(run[i - 1], run[i], env);
    }
  }

  /** The triple does not change while anyone holds a state lease. */
  lemma LeaseFreezesTriple(run: seq<Store>, now: Triple, env: Env, i: nat, id: nat)
    requires IsRun(run, now, env) && i + 1 < |run| && id in run[i].readers
    ensures run[i + 1].now == run[i].now
  {
    hide Step, Clean, Fresh, ExecuteAll;
    RunConsistent(run, now, env, i);
    assert Step(run[i], run[i + 1], env);
    OnlyWorkChangesTriple(run[i], run[i + 1], env);
  }

  lemma OnlyWorkChangesTriple(s: Store, t: Store, env: Env)
    requires Step(s, t, env)
    ensures t.now != s.now ==> s.writer.Working?
  {
    hide Uncached, UncachedPath, RowsOf, Program;
    if id :| id in s.readers && ReaderStep(s, t, id, env) {
      ReaderKeepsTriple(s, t, id, env);
    }
  }

  /**
   * Over every interleaving of lookups with reloading, publication, source replacement and close,
   * each answer is the uncached answer for the triple that is current during its lease.
   */
  lemma AnswersAreCurrent(run: seq<Store>, now: Triple, env: Env, i: nat, id: nat)
    requires IsRun(run, now, env) && i < |run| && id in run[i].readers
    ensures run[i].readers[id].Answered? ==>
              run[i].readers[id].response == Uncached(run[i].now, run[i].readers[id].request, env)
    ensures run[i].readers[id].PathAnswered? ==>
              run[i].readers[id].response == UncachedPath(run[i].now, run[i].readers[id].path, env)
  {
    hide IsRun, Clean, Uncached, UncachedPath;
    RunConsistent(run, now, env, i);
    assert Fresh(run[i].readers[id], run[i], env);
  }

  /* ---- Every change takes effect. ---- */

  /** The writer is on its way to what `change` asks for, starting from `base`. */
  ghost predicate OnTheWay(s: Store, base: Triple, change: Change) {
    match s.writer
    case NoWriter => false
    case Waiting(waiting) => waiting == change && s.now == base
    case Working(rest) =>
      && ExecuteAll(s, rest).now == Wanted(base, change) && DbFirst(rest)
      && (forall i :: 0 <= i < |rest| && rest[i].SetDb? ==> change.PublishDatabase? && s.now == base)
  }

  lemma ProgramsFail(change: Change)
    ensures forall i :: 0 <= i < |Program(change)| && Program(change)[i].SetDb? ==> change.PublishDatabase?
  {
  }

  lemma BodyStarts(s: Store, base: Triple, change: Change)
    requires OnTheWay(s, base, change) && s.writer.Waiting?
    ensures OnTheWay(s.(writer := Working(Program(change))), base, change)
  {
    ProgramDelivers(s, change);
    ProgramsReplaceFirst(change);
    ProgramsFail(change);
    ExecuteIgnoresWriter(s, Working(Program(change)), Program(change));
    hide ExecuteAll, Program, DbFirst;
  }

  lemma BodyGoesOn(s: Store, base: Triple, change: Change)
    requires OnTheWay(s, base, change) && s.writer.Working? && s.writer.rest != []
    ensures var rest := s.writer.rest; OnTheWay(Execute(s, rest[0]).(writer := Working(rest[1..])), base, change)
  {
    var rest := s.writer.rest;
    var s1 := Execute(s, rest[0]);
    assert ExecuteAll(s, rest) == ExecuteAll(s1, rest[1..]);
    ExecuteIgnoresWriter(s1, Working(rest[1..]), rest[1..]);
    hide ExecuteAll;
    forall i | 0 <= i < |rest[1..]| && rest[1..][i].SetDb? ensures change.PublishDatabase? && s1.now == base {
      assert rest[i + 1].SetDb?;
    }
  }

  lemma EvictedOnTheWay(s: Store, t: Store, base: Triple, change: Change)
    requires OnTheWay(s, base, change) && EvictStep(s, t)
    ensures OnTheWay(t, base, change)
  {
    hide DbFirst, Wanted;
    if s.writer.Working? {
      EvictedFewer(s, t);
      FewerPersists(s, t, s.writer.rest);
    }
  }

  /** A change is delivered by the step that ends it, unless that step is the failure of a publication. */
  ghost predicate Ends(s: Store, t: Store, base: Triple, change: Change) {
    && t.writer == NoWriter
    && if s.writer == Working([]) then t.now == Wanted(base, change) else change.PublishDatabase? && t.now == base
  }

  lemma WriterOnTheWay(s: Store, t: Store, base: Triple, change: Change)
    requires OnTheWay(s, base, change) && WriterStep(s, t)
    ensures OnTheWay(t, base, change) || Ends(s, t, base, change)
  {
    hide Program, DbFirst, Wanted, Execute;
    if s.writer.Waiting? {
      BodyStarts(s, base, change);
    } else if s.writer.rest != [] && t == Execute(s, s.writer.rest[0]).(writer := Working(s.writer.rest[1..])) {
      BodyGoesOn(s, base, change);
    }
  }

  lemma StepOnTheWay(s: Store, t: Store, base: Triple, change: Change, env: Env)
    requires Consistent(s, env) && Step(s, t, env) && OnTheWay(s, base, change)
    ensures OnTheWay(t, base, change) || Ends(s, t, base, change)
  {
    hide Clean, Fresh, ReaderStep, WriterStep, EvictStep, ExecuteAll, DbFirst, Wanted;
    if id :| id in s.readers && ReaderStep(s, t, id, env) {
      ReaderKeepsTriple(s, t, id, env);
    } else if WriterStep(s, t) {
      WriterOnTheWay(s, t, base, change);
    } else {
      EvictedOnTheWay(s, t, base, change);
    }
  }

  lemma {:induction false} ChangeGoesOn(run: seq<Store>, now: Triple, env: Env, i: nat, j: nat, change: Change)
    requires IsRun(run, now, env) && i <= j < |run| && run[i].writer == Waiting(change)
    requires forall k :: i <= k <= j ==> run[k].writer != NoWriter
    ensures OnTheWay(run[j], run[i].now, change)
    decreases j
  {
    hide Step, Consistent;
    if i < j {
      ChangeGoesOn(run, now, env, i, j - 1, change);
      RunConsistent(run, now, env, j - 1);
      StepOnTheWay(run[j - 1], run[j], run[i].now, change, env);
    }
  }

  /**
   * Over every interleaving, a change that gets to the end of its statements leaves exactly what it
   * asked for in place of what was current when it was requested; only a publication can end
   * otherwise, and then nothing has changed.
   */
  lemma ChangeTakesEffect(run: seq<Store>, now: Triple, env: Env, i: nat, j: nat, change: Change)
    requires IsRun(run, now, env) && i < j < |run| && run[i].writer == Waiting(change)
    requires forall k :: i <= k < j ==> run[k].writer != NoWriter
    requires run[j].writer == NoWriter
    ensures if run[j - 1].writer == Working([]) then run[j].now == Wanted(run[i].now, change)
            else change.PublishDatabase? && run[j].now == run[i].now
  {
    hide Step, Consistent, OnTheWay;
    ChangeGoesOn(run, now, env, i, j - 1, change);
    RunConsistent(run, now, env, j - 1);
    StepOnTheWay(run[j - 1], run[j], run[i].now, change, env);
    assert !OnTheWay(run[j], run[i].now, change) by {
      NothingOnTheWay(run[j], run[i].now, change);
    }
  }

  lemma NothingOnTheWay(s: Store, base: Triple, change: Change)
    ensures s.writer == NoWriter ==> !OnTheWay(s, base, change)
  {
  }

  lemma {:induction false} QuietKeepsTriple(run: seq<Store>, now: Triple, env: Env, j: nat, m: nat)
    requires IsRun(run, now, env) && j <= m < |run|
    requires forall k :: j <= k < m ==> !run[k].writer.Working?
    ensures run[m].now == run[j].now
    decreases m
  {
    hide Step;
    if j < m {
      QuietKeepsTriple(run, now, env, j, m - 1);
      OnlyWorkChangesTriple(run[m - 1], run[m], env);
    }
  }

  /** Until the next change is at work, every lookup is answered from what the last one asked for. */
  lemma AnswersAfterChange(
    run: seq<Store>, now: Triple, env: Env, i: nat, j: nat, change: Change, m: nat, id: nat)
    requires IsRun(run, now, env) && i < j <= m < |run| && run[i].writer == Waiting(change)
    requires (forall k :: i <= k < j ==> run[k].writer != NoWriter) && run[j - 1].writer == Working([])
    requires run[j].writer == NoWriter && forall k :: j <= k < m ==> !run[k].writer.Working?
    requires id in run[m].readers && run[m].readers[id].Answered?
    ensures run[m].readers[id].response == Uncached(Wanted(run[i].now, change), run[m].readers[id].request, env)
  {
    hide IsRun, Uncached, Wanted;
    ChangeTakesEffect(run, now, env, i, j, change);
    QuietKeepsTriple(run, now, env, j, m);
    AnswersAreCurrent(run, now, env, m, id);
  }

  /** Whenever readers may be inside, nothing cached for them is stale. */
  lemma CachesNeverStale(run: seq<Store>, now: Triple, env: Env, i: nat)
    requires IsRun(run, now, env) && i < |run| && (run[i].readers != map[] || !run[i].writer.Working?)
    ensures Clean(run[i], env)
  {
    hide IsRun, Clean, Fresh;
    RunConsistent(run, now, env, i);
  }
}
