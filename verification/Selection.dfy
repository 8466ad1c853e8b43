/** Row selection of the add-on's lookup store: which rows answer a request, and in which order. */
module Selection {
  import opened Wrappers
  import opened Text
  import opened Sorting
  import opened Compile

  /** A request; `sources` and `users` are in the caller's order of preference. */
  datatype LookupRequest = LookupRequest(
    expression: Text, reading: Option<Text>, sources: seq<Text>, users: seq<Text>)

  /* ---- Ranks. ---- */

  /** Each name ranks by its first occurrence (`setdefault`, `or_insert`). */
  function RankMap(names: seq<Text>): (ranks: map<Text, nat>)
    ensures forall name :: name in ranks ==> ranks[name] < |names| && names[ranks[name]] == name
  {
    if names == [] then map[]
    else
      var ranks, last := RankMap(names[..|names| - 1]), names[|names| - 1];
      if last in ranks then ranks else ranks[last := |names| - 1]
  }

  lemma {:induction false} RankedNames(names: seq<Text>, name: Text)
    ensures name in RankMap(names) <==> name in names
    ensures name in names ==> forall k :: 0 <= k < RankMap(names)[name] ==> names[k] != name
  {
    if names != [] {
      var front, last := names[..|names| - 1], names[|names| - 1];
      assert names == front + [last];
      RankedNames(front, name);
      RankedNames(front, last);
    }
  }

  lemma RanksDistinguish(names: seq<Text>, a: Text, b: Text)
    requires a in RankMap(names) && b in RankMap(names) && RankMap(names)[a] == RankMap(names)[b]
    ensures a == b
  {
    assert names[RankMap(names)[a]] == a;
  }

  method BuildRanks(names: seq<Text>) returns (ranks: map<Text, nat>)
    ensures ranks == RankMap(names)
  {
    ranks := map[];
    for k := 0 to |names|
      invariant ranks == RankMap(names[..k])
    {
      assert names[..k + 1][..k] == names[..k];
      if names[k] !in ranks {
        ranks := ranks[names[k] := k];
      }
    }
    assert names[..|names|] == names;
  }

  function RankOr(ranks: map<Text, nat>, name: Text, default: int): int {
    if name in ranks then ranks[name] else default
  }

  /* ---- Rows of an expression. ---- */

  /** The rows the two queries and the in-memory table return for an expression and reading. */
  function MatchesReading(reading: Option<Text>): Row -> bool {
    (row: Row) => reading.None? || row.reading.None? || row.reading == reading
  }

  function MatchingRows(rows: seq<Row>, expression: Text, reading: Option<Text>): seq<Row> {
    Keep(RowsFor(rows, expression), MatchesReading(reading))
  }

  /**
   * The rows of the expression that have the asked reading or none at all, each as often as the
   * database has it; without an asked reading, all rows of the expression.
   */
  lemma MatchingMeaning(rows: seq<Row>, expression: Text, reading: Option<Text>, row: Row)
    ensures multiset(MatchingRows(rows, expression, reading))[row]
         == if row.expression == expression && (reading.Some? && row.reading.Some? ==> row.reading == reading)
            then multiset(rows)[row] else 0
  {
    KeepCounts(rows, OfTerm(expression), row);
    KeepCounts(RowsFor(rows, expression), MatchesReading(reading), row);
  }

  function Admits(request: LookupRequest): Row -> bool {
    (row: Row) => row.source in request.sources
      && (request.users == [] || row.speaker.None? || row.speaker.value in request.users)
  }

  /** Requested source, then speakerless rows, then requested users, then reading, then row id. */
  function SelectKey(request: LookupRequest): Row -> RankKey {
    var sources, users := RankMap(request.sources), RankMap(request.users);
    (row: Row) => RankKey(
      RankOr(sources, row.source, |sources|),
      if row.speaker.None? then -1 else RankOr(users, row.speaker.value, |users|),
      row.reading, row.id)
  }

  function Selected(rows: seq<Row>, request: LookupRequest): seq<Row> {
    SortByKey(Keep(rows, Admits(request)), SelectKey(request))
  }

  ghost predicate DistinctIds(rows: seq<Row>) {
    forall i, j :: 0 <= i < j < |rows| ==> rows[i].id != rows[j].id
  }

  /** `_select_rows`. */
  method SelectRows(rows: seq<Row>, request: LookupRequest) returns (selected: seq<Row>)
    ensures selected == Selected(rows, request)
  {
    selected := [];
    for k := 0 to |rows|
      invariant selected == Keep(rows[..k], Admits(request))
    {
      KeepAppend(rows[..k], rows[k], Admits(request));
      assert rows[..k + 1] == rows[..k] + [rows[k]];
      var row := rows[k];
      if row.source in request.sources
         && (request.users == [] || row.speaker.None? || row.speaker.value in request.users)
      {
        selected := selected + [row];
      }
    }
    assert rows[..|rows|] == rows;
    selected := SortByKey(selected, SelectKey(request));
  }

  /* ---- What the order means. ---- */

  /** `a` is on the list, and before any mention of `b`. */
  ghost predicate AskedBefore(names: seq<Text>, a: Text, b: Text) {
    exists i :: 0 <= i < |names| && names[i] == a && b !in names[..i + 1]
  }

  /** Rows that no speaker sets apart: the same one, or any two when the request names none. */
  predicate SpeakersTie(users: seq<Text>, a: Option<Text>, b: Option<Text>) {
    a == b || (users == [] && a.Some? && b.Some?)
  }

  /**
   * A source asked for earlier comes first, then a row without a speaker, then a user asked for
   * earlier, then no reading before any and smaller readings first, then the smaller row id.
   */
  ghost predicate Preferred(request: LookupRequest, a: Row, b: Row) {
    || AskedBefore(request.sources, a.source, b.source)
    || (a.source == b.source
        && (|| (a.speaker.None? && b.speaker.Some?)
            || (a.speaker.Some? && b.speaker.Some?
                && AskedBefore(request.users, a.speaker.value, b.speaker.value))
            || (SpeakersTie(request.users, a.speaker, b.speaker)
                && (OptionLess(a.reading, b.reading) || (a.reading == b.reading && a.id < b.id)))))
  }

  lemma RanksFollowRequest(names: seq<Text>, a: Text, b: Text)
    requires a in names && b in names
    ensures a in RankMap(names) && b in RankMap(names)
    ensures RankMap(names)[a] < RankMap(names)[b] <==> AskedBefore(names, a, b)
    ensures RankMap(names)[a] == RankMap(names)[b] <==> a == b
  {
    RankedNames(names, a);
    RankedNames(names, b);
    var i, j := RankMap(names)[a], RankMap(names)[b];
    assert names[i] == a && names[j] == b;
    if i < j {
      assert b !in names[..i + 1];
    }
    if AskedBefore(names, a, b) {
      var k :| 0 <= k < |names| && names[k] == a && b !in names[..k + 1];
      assert forall m :: 0 <= m <= k ==> names[..k + 1][m] == names[m];
      assert j > k >= i;
    }
  }

  function SpeakerRank(users: seq<Text>, speaker: Option<Text>): int {
    if speaker.None? then -1 else RankOr(RankMap(users), speaker.value, |RankMap(users)|)
  }

  lemma SpeakersFollowRequest(users: seq<Text>, a: Option<Text>, b: Option<Text>)
    requires users == [] || ((a.Some? ==> a.value in users) && (b.Some? ==> b.value in users))
    ensures var i, j := SpeakerRank(users, a), SpeakerRank(users, b);
            && (i < j <==> (a.None? && b.Some?) || (a.Some? && b.Some? && AskedBefore(users, a.value, b.value)))
            && (i == j <==> SpeakersTie(users, a, b))
  {
    if users == [] {
      assert RankMap(users) == map[];
    } else if a.Some? && b.Some? {
      RanksFollowRequest(users, a.value, b.value);
      hide RankMap, AskedBefore;
    } else if a.Some? {
      RankedNames(users, a.value);
    } else if b.Some? {
      RankedNames(users, b.value);
    }
  }

  lemma KeyParts(request: LookupRequest, row: Row)
    ensures SelectKey(request)(row)
         == RankKey(RankOr(RankMap(request.sources), row.source, |RankMap(request.sources)|),
                    SpeakerRank(request.users, row.speaker), row.reading, row.id)
  {
  }

  lemma AdmittedIsRequested(request: LookupRequest, row: Row)
    ensures Admits(request)(row) <==>
              row.source in request.sources
              && (request.users == [] || (row.speaker.Some? ==> row.speaker.value in request.users))
  {
  }

  lemma KeyFollowsRequest(request: LookupRequest, a: Row, b: Row, i: RankKey, j: RankKey)
    requires Admits(request)(a) && Admits(request)(b)
    requires i == SelectKey(request)(a) && j == SelectKey(request)(b)
    ensures (i.major < j.major <==> AskedBefore(request.sources, a.source, b.source))
         && (i.major == j.major <==> a.source == b.source)
    ensures (i.minor < j.minor <==>
               (a.speaker.None? && b.speaker.Some?)
               || (a.speaker.Some? && b.speaker.Some?
                   && AskedBefore(request.users, a.speaker.value, b.speaker.value)))
         && (i.minor == j.minor <==> SpeakersTie(request.users, a.speaker, b.speaker))
    ensures i.reading == a.reading && i.last == a.id && j.reading == b.reading && j.last == b.id
  {
    AdmittedIsRequested(request, a);
    AdmittedIsRequested(request, b);
    KeyParts(request, a);
    KeyParts(request, b);
    hide AskedBefore, SpeakersTie, RankMap, SpeakerRank, Admits, SelectKey;
    RanksFollowRequest(request.sources, a.source, b.source);
    SpeakersFollowRequest(request.users, a.speaker, b.speaker);
  }

  lemma PreferredIsKey(request: LookupRequest, a: Row, b: Row)
    requires Admits(request)(a) && Admits(request)(b)
    ensures Preferred(request, a, b) <==> KeyLess(SelectKey(request)(a), SelectKey(request)(b))
  {
    var i, j := SelectKey(request)(a), SelectKey(request)(b);
    KeyFollowsRequest(request, a, b, i, j);
    hide AskedBefore, OptionLess, SpeakersTie, SelectKey, Admits;
  }

  /**
   * Exactly the rows of a requested source are selected whose speaker is unknown or, if users are
   * requested, one of them; each as often as it was found, and none before one preferred to it.
   */
  lemma SelectedMeaning(rows: seq<Row>, request: LookupRequest, row: Row)
    ensures multiset(Selected(rows, request))[row]
         == if row.source in request.sources
               && (request.users != [] && row.speaker.Some? ==> row.speaker.value in request.users)
            then multiset(rows)[row] else 0
    ensures forall i, j :: 0 <= i < j < |Selected(rows, request)| ==>
              !Preferred(request, Selected(rows, request)[j], Selected(rows, request)[i])
  {
    var kept, selected := Keep(rows, Admits(request)), Selected(rows, request);
    KeepCounts(rows, Admits(request), row);
    AdmittedIsRequested(request, row);
    SortSorted(kept, SelectKey(request));
    SortMultiset(kept, SelectKey(request));
    forall i, j | 0 <= i < j < |selected| ensures !Preferred(request, selected[j], selected[i]) {
      SelectedAdmitted(rows, request, selected[i]);
      SelectedAdmitted(rows, request, selected[j]);
      PreferredIsKey(request, selected[j], selected[i]);
    }
  }

  lemma SelectedAdmitted(rows: seq<Row>, request: LookupRequest, row: Row)
    requires row in Selected(rows, request)
    ensures Admits(request)(row)
  {
    SortMembers(Keep(rows, Admits(request)), SelectKey(request), row);
    KeepMembers(rows, Admits(request), row);
  }

  lemma IdsKeepKeysApart(rows: seq<Row>, request: LookupRequest)
    requires DistinctIds(rows)
    ensures DistinctKeys(rows, SelectKey(request))
  {
  }

  /** The answer does not depend on the order the database returns the rows in. */
  lemma SelectedOrderFree(rows: seq<Row>, other: seq<Row>, request: LookupRequest)
    requires DistinctIds(rows) && multiset(rows) == multiset(other)
    ensures Selected(rows, request) == Selected(other, request)
  {
    IdsKeepKeysApart(rows, request);
    KeepDistinct(rows, Admits(request), SelectKey(request));
    KeepPermuted(rows, other, Admits(request));
    SortOrderFree(Keep(rows, Admits(request)), Keep(other, Admits(request)), SelectKey(request));
  }

  /* ---- The single best row. ---- */

  /** The tuple `_first_row_unleased` compares. */
  function FirstKey(configured: seq<Text>): Row -> RankKey {
    var ranks := RankMap(configured);
    (row: Row) => RankKey(RankOr(ranks, row.source, 0),
                          if row.speaker.None? then 0 else 1, row.reading, row.id)
  }

  function Everything(expression: Text, reading: Option<Text>, configured: seq<Text>): LookupRequest {
    LookupRequest(expression, reading, configured, [])
  }

  lemma FirstKeyAlike(rows: seq<Row>, request: LookupRequest)
    requires request.users == []
    ensures OrderAlike(Keep(rows, Admits(request)), FirstKey(request.sources), SelectKey(request))
  {
    var kept := Keep(rows, Admits(request));
    forall row | row in kept ensures row.source in RankMap(request.sources) {
      KeepMembers(rows, Admits(request), row);
      RankedNames(request.sources, row.source);
    }
    assert RankMap(request.users) == map[];
    assert |RankMap(request.users)| == 0;
  }

  /** `_first_row_unleased`: the head of the full selection, found without sorting. */
  method FirstRow(rows: seq<Row>, expression: Text, reading: Option<Text>, configured: seq<Text>)
    returns (best: Option<Row>)
    ensures best == Head(Selected(rows, Everything(expression, reading, configured)))
  {
    var ranks := BuildRanks(configured);
    ghost var request := Everything(expression, reading, configured);
    ghost var key := FirstKey(configured);
    best := None;
    for k := 0 to |rows|
      invariant best == Head(SortByKey(Keep(rows[..k], Admits(request)), key))
    {
      var row := rows[k];
      assert rows[..k + 1] == rows[..k] + [row];
      KeepAppend(rows[..k], row, Admits(request));
      RankedNames(configured, row.source);
      if row.source in ranks {
        ScanHead(Keep(rows[..k], Admits(request)), row, key);
        if best.None? || KeyLess(FirstKey(configured)(row), FirstKey(configured)(best.value)) {
          best := Some(row);
        }
      }
    }
    assert rows[..|rows|] == rows;
    FirstKeyAlike(rows, request);
    SortAlike(Keep(rows, Admits(request)), key, SelectKey(request));
  }
}
