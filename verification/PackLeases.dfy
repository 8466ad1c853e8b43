/**
 * Lifetime of opened packs in the lookup store: who may still read a pack, and when it is closed.
 * Every method runs under the pack guard, so a run is a sequence of these steps.
 */
module PackLeases {
  import opened Wrappers
  import opened Text

  /** An opened pack object; two objects may share a version. */
  datatype Pack = Pack(object: nat, version: Text)

  /**
   * The store's pack fields. For specification, `handed` lists the packs given away for closing,
   * `held` the leases callers have not returned, and `created` every object ever opened.
   */
  datatype Leases = Leases(
    current: Option<Pack>, epoch: nat, leases: map<Pack, nat>, retired: set<Pack>, historical: map<Text, Pack>,
    handed: seq<Pack>, held: multiset<Pack>, created: set<Pack>)

  const NO_PACKS := Leases(None, 0, map[], {}, map[], [], multiset{}, {})

  function Count(leases: map<Pack, nat>, pack: Pack): nat {
    if pack in leases then leases[pack] else 0
  }

  predicate Names(historical: map<Text, Pack>, pack: Pack) {
    pack.version in historical && historical[pack.version] == pack
  }

  /** Which pack a request gets; `made` is the object opening the version would create, if it can. */
  function Choose(s: Leases, version: Option<Text>, made: Option<Pack>): Option<Pack> {
    if version.None? then s.current
    else if s.current.Some? && s.current.value.version == version.value then s.current
    else if version.value in s.historical then Some(s.historical[version.value])
    else made
  }

  predicate Opens(s: Leases, version: Option<Text>) {
    version.Some? && (s.current.Some? ==> s.current.value.version != version.value) && version.value !in s.historical
  }

  function Opened(s: Leases, version: Option<Text>, made: Option<Pack>): Leases {
    if Opens(s, version) && made.Some?
    then s.(historical := s.historical[version.value := made.value], created := s.created + {made.value})
    else s
  }

  /** `_acquire_pack_snapshot_locked`. */
  function Acquired(s: Leases, version: Option<Text>, made: Option<Pack>): Leases {
    var s1 := Opened(s, version, made);
    match Choose(s, version, made)
    case None => s1
    case Some(p) => s1.(leases := s1.leases[p := Count(s1.leases, p) + 1], held := s1.held + multiset{p})
  }

  /** Drops a pack from the historical and retired tables and hands it off for closing. */
  function Forget(s: Leases, pack: Pack): Leases {
    s.(historical := if Names(s.historical, pack) then s.historical - {pack.version} else s.historical,
       retired := s.retired - {pack}, handed := s.handed + [pack])
  }

  /** The end of `_leased_pack_snapshot`. */
  function Released(s: Leases, pack: Pack): Leases {
    var remaining := Count(s.leases, pack) - 1;
    if remaining > 0 then s.(leases := s.leases[pack := remaining], held := s.held - multiset{pack})
    else
      var s1 := s.(leases := s.leases - {pack}, held := s.held - multiset{pack});
      if s.current == Some(pack) then s1 else Forget(s1, pack)
  }

  /** `_retire_pack_locked`. */
  function RetirePack(s: Leases, pack: Pack): Leases {
    if Count(s.leases, pack) > 0 then
      if pack.version !in s.historical then s.(historical := s.historical[pack.version := pack])
      else if s.historical[pack.version] != pack then s.(retired := s.retired + {pack})
      else s
    else Forget(s, pack)
  }

  function Switched(s: Leases, made: Option<Pack>): Leases {
    s.(current := made, epoch := s.epoch + 1,
       created := if made.Some? then s.created + {made.value} else s.created)
  }

  /** `_reload_pack_unleased`; `made` is the object the active manifest opens, if any. */
  function Reloaded(s: Leases, made: Option<Pack>): Leases {
    if s.current.None? then Switched(s, made) else RetirePack(Switched(s, made), s.current.value)
  }

  function Known(s: Leases): set<Pack> {
    (set version | version in s.historical :: s.historical[version]) + s.retired
    + (if s.current.Some? then {s.current.value} else {})
  }

  predicate DistinctPacks(packs: seq<Pack>) {
    forall i, j :: 0 <= i < j < |packs| ==> packs[i] != packs[j]
  }

  /** `close` hands off every unleased pack, in some order, and retires the leased ones. */
  ghost predicate Closing(s: Leases, closing: seq<Pack>) {
    DistinctPacks(closing) && forall pack :: pack in closing <==> pack in Known(s) && Count(s.leases, pack) == 0
  }

  function Closed(s: Leases, closing: seq<Pack>): Leases {
    s.(current := None, epoch := s.epoch + 1, historical := map[],
       retired := (set pack | pack in Known(s) && Count(s.leases, pack) > 0), handed := s.handed + closing)
  }

  /* ---- What every step keeps. ---- */

  /** The lease table counts the leases that are out, and nothing else. */
  ghost predicate Counted(s: Leases) {
    && (forall pack :: Count(s.leases, pack) == s.held[pack])
    && (forall pack :: pack in s.leases ==> s.leases[pack] > 0)
  }

  /** Historical and retired packs carry a positive lease, and no pack has two roles. */
  ghost predicate Roles(s: Leases) {
    && (forall version :: version in s.historical ==>
          && s.historical[version].version == version && s.historical[version] in s.leases
          && s.historical[version] !in s.retired && s.current != Some(s.historical[version]))
    && (forall pack :: pack in s.retired ==> pack in s.leases && s.current != Some(pack))
    && (forall pack :: pack in s.leases ==> pack in Known(s))
  }

  /** Every opened pack is known or was handed off, never both, and handed off at most once. */
  ghost predicate Accounted(s: Leases) {
    && DistinctPacks(s.handed)
    && (forall pack :: pack in s.created <==> pack in Known(s) || pack in s.handed)
    && (forall pack :: pack in s.handed ==> pack !in Known(s))
  }

  ghost predicate Safe(s: Leases) {
    Counted(s) && Roles(s) && Accounted(s)
  }

  /** The promises of the store in its own terms. */
  lemma SafeMeans(s: Leases, pack: Pack)
    requires Safe(s)
    // A leased pack has not been handed off for closing.
    ensures s.held[pack] > 0 ==> pack in s.created && pack !in s.handed
    // An opened pack that is neither current nor leased has been handed off.
    ensures pack in s.created && s.current != Some(pack) && s.held[pack] == 0 ==> pack in s.handed
    // Historical and retired packs are leased.
    ensures (exists version :: version in s.historical && s.historical[version] == pack) || pack in s.retired
            ==> s.held[pack] > 0
    ensures DistinctPacks(s.handed)
  {
    assert Count(s.leases, pack) == s.held[pack];
  }

  lemma CountedUpdate(leases: map<Pack, nat>, held: multiset<Pack>, pack: Pack)
    requires forall p :: Count(leases, p) == held[p]
    ensures forall p :: Count(leases[pack := Count(leases, pack) + 1], p) == (held + multiset{pack})[p]
    ensures held[pack] > 1 ==>
              forall p :: Count(leases[pack := (Count(leases, pack) - 1) as nat], p) == (held - multiset{pack})[p]
    ensures held[pack] == 1 ==> forall p :: Count(leases - {pack}, p) == (held - multiset{pack})[p]
  {
  }

  lemma AcquireKeeps(s: Leases, version: Option<Text>, made: Option<Pack>)
    requires Safe(s)
    requires made.Some? ==> made.value !in s.created && version == Some(made.value.version)
    ensures Safe(Acquired(s, version, made))
  {
    hide *;
    AcquiredIs(s, version, made);
    if Opens(s, version) && made.Some? {
      LeaseOpened(s, made.value);
    } else if Choose(s, version, made).Some? {
      ChosenKnown(s, version, made);
      LeaseKnown(s, Choose(s, version, made).value);
    }
  }

  lemma AcquiredIs(s: Leases, version: Option<Text>, made: Option<Pack>)
    requires made.Some? ==> version == Some(made.value.version)
    ensures var after, chosen := Acquired(s, version, made), Choose(s, version, made);
            if Opens(s, version) && made.Some? then
              made.value.version !in s.historical && after == Leased(Named(s, made.value), made.value)
            else if chosen.Some? then after == Leased(s, chosen.value)
            else after == s
  {
    hide Known, Count;
  }

  /** A request for a version gets a pack of that version, and one without gets the active pack. */
  lemma ChosenIsAskedFor(s: Leases, version: Option<Text>, made: Option<Pack>)
    requires Roles(s)
    requires made.Some? ==> version == Some(made.value.version)
    ensures var chosen := Choose(s, version, made);
            if version.None? then chosen == s.current
            else
              && (chosen.Some? ==> chosen.value.version == version.value)
              && (chosen.None? ==> made.None? && forall pack :: pack in Known(s) && pack !in s.retired ==>
                                                   pack.version != version.value)
  {
  }

  lemma ChosenKnown(s: Leases, version: Option<Text>, made: Option<Pack>)
    requires Choose(s, version, made).Some? && !(Opens(s, version) && made.Some?)
    ensures Choose(s, version, made).value in Known(s)
  {
    CurrentKnown(s);
    hide Known;
  }

  /** A pack opened by its version is kept under it. */
  function Named(s: Leases, pack: Pack): Leases {
    s.(historical := s.historical[pack.version := pack], created := s.created + {pack})
  }

  function Leased(s: Leases, pack: Pack): Leases {
    s.(leases := s.leases[pack := Count(s.leases, pack) + 1], held := s.held + multiset{pack})
  }

  /** One more lease of a known pack. */
  lemma LeaseKnown(s: Leases, pack: Pack)
    requires Safe(s) && pack in Known(s)
    ensures Safe(Leased(s, pack))
  {
    var after := Leased(s, pack);
    CountedUpdate(s.leases, s.held, pack);
    assert Known(after) == Known(s);
    assert Counted(after);
    hide Known, Counted, Count;
  }

  /** The first lease of a pack opened by its version. */
  lemma LeaseOpened(s: Leases, pack: Pack)
    requires Safe(s) && pack !in s.created && pack.version !in s.historical
    ensures Safe(Leased(Named(s, pack), pack))
  {
    var after := Leased(Named(s, pack), pack);
    OpenedCounts(s, pack);
    forall other ensures other in Known(after) <==> other in Known(s) || other == pack {
      KnownAfterNaming(s, pack.version, pack, other);
    }
    hide Known, Counted, Count;
    assert pack !in Known(s);
    OpenedAccounted(s, after, pack);
    hide Accounted, Leased, Named;
    OpenedRoles(s, pack);
  }

  lemma OpenedCounts(s: Leases, pack: Pack)
    requires Counted(s)
    ensures Counted(Leased(Named(s, pack), pack))
  {
    CountedUpdate(s.leases, s.held, pack);
  }

  lemma OpenedAccounted(s: Leases, after: Leases, pack: Pack)
    requires Accounted(s) && pack !in s.created
    requires after.handed == s.handed && after.created == s.created + {pack}
    requires forall other :: other in Known(after) <==> other in Known(s) || other == pack
    ensures Accounted(after)
  {
    hide Known, DistinctPacks;
  }

  lemma OpenedRoles(s: Leases, pack: Pack)
    requires Roles(s) && pack !in Known(s)
    requires forall other :: other in Known(Leased(Named(s, pack), pack)) <==> other in Known(s) || other == pack
    ensures Roles(Leased(Named(s, pack), pack))
  {
    CurrentKnown(s);
    hide Known, Count;
  }

  lemma CurrentKnown(s: Leases)
    ensures s.current.Some? ==> s.current.value in Known(s)
    ensures forall pack :: pack in s.retired ==> pack in Known(s)
    ensures forall version :: version in s.historical ==> s.historical[version] in Known(s)
  {
  }

  lemma AcquiredLeased(s: Leases, version: Option<Text>, made: Option<Pack>)
    requires Safe(Acquired(s, version, made))
    ensures var chosen, after := Choose(s, version, made), Acquired(s, version, made);
            chosen.Some? ==> after.held[chosen.value] > 0 && chosen.value !in after.handed
  {
    hide Safe;
    if Choose(s, version, made).Some? {
      SafeMeans(Acquired(s, version, made), Choose(s, version, made).value);
    }
  }

  lemma KnownAfterNaming(s: Leases, version: Text, pack: Pack, other: Pack)
    requires version !in s.historical
    ensures other in Known(s.(historical := s.historical[version := pack])) <==> other in Known(s) || other == pack
  {
    var after := s.historical[version := pack];
    assert after[version] == pack;
    if v :| v in s.historical && s.historical[v] == other {
      assert after[v] == other;
    }
  }

  /** Handing off a pack that has no lease and is not current. */
  lemma KnownAfterForget(s: Leases, pack: Pack, other: Pack)
    requires forall version :: version in s.historical ==> s.historical[version].version == version
    requires s.current != Some(pack)
    ensures other in Known(Forget(s, pack)) <==> other in Known(s) && other != pack
  {
    var after := Forget(s, pack).historical;
    if v :| v in s.historical && s.historical[v] == other && other != pack {
      assert v in after && after[v] == other;
    }
  }

  /** A lease that is not the last one, or on the current pack, leaves every role as it is. */
  lemma ReleaseInPlace(s: Leases, pack: Pack, leases: map<Pack, nat>)
    requires Safe(s) && s.held[pack] > 0
    requires leases
          == if s.held[pack] > 1 then s.leases[pack := (Count(s.leases, pack) - 1) as nat] else s.leases - {pack}
    requires s.held[pack] > 1 || s.current == Some(pack)
    ensures Safe(s.(leases := leases, held := s.held - multiset{pack}))
  {
    var after := s.(leases := leases, held := s.held - multiset{pack});
    CountedRelease(s, after, pack);
    assert Known(after) == Known(s);
    hide Known, Counted, Count;
    assert Accounted(after);
    hide Accounted;
    StayingRoles(s, after, pack);
  }

  lemma StayingRoles(s: Leases, after: Leases, pack: Pack)
    requires Roles(s) && Known(after) == Known(s)
    requires after.historical == s.historical && after.retired == s.retired && after.current == s.current
    requires after.leases.Keys == s.leases.Keys
          || (after.leases.Keys == s.leases.Keys - {pack} && s.current == Some(pack))
    ensures Roles(after)
  {
    CurrentKnown(s);
    hide Known;
    assert forall other :: other in after.leases <==> other in after.leases.Keys;
    assert forall other :: other in s.leases <==> other in s.leases.Keys;
  }

  lemma CountedRelease(s: Leases, after: Leases, pack: Pack)
    requires Counted(s) && s.held[pack] > 0 && after.held == s.held - multiset{pack}
    requires after.leases
          == if s.held[pack] > 1 then s.leases[pack := (Count(s.leases, pack) - 1) as nat] else s.leases - {pack}
    ensures Counted(after)
    ensures pack in s.leases && (pack in after.leases <==> s.held[pack] > 1)
  {
    CountedUpdate(s.leases, s.held, pack);
    assert Count(s.leases, pack) == s.held[pack];
  }

  /** The last lease of a replaced pack hands it off. */
  lemma ReleaseLast(s: Leases, pack: Pack)
    requires Safe(s) && s.held[pack] == 1 && s.current != Some(pack)
    ensures Safe(Forget(s.(leases := s.leases - {pack}, held := s.held - multiset{pack}), pack))
  {
    var s1 := s.(leases := s.leases - {pack}, held := s.held - multiset{pack});
    var after := Forget(s1, pack);
    CountedRelease(s, after, pack);
    hide Counted, Count;
    assert Known(s1) == Known(s) && pack in Known(s);
    forall other ensures other in Known(after) <==> other in Known(s) && other != pack {
      KnownAfterForget(s1, pack, other);
    }
    hide Known;
    AccountedForget(s, after, pack);
    hide Accounted;
    RolesForget(s, after, pack);
  }

  lemma RolesForget(s: Leases, after: Leases, pack: Pack)
    requires Roles(s) && s.current != Some(pack) && after.current == s.current
    requires after.leases == s.leases - {pack} && after.retired == s.retired - {pack}
    requires after.historical == if Names(s.historical, pack) then s.historical - {pack.version} else s.historical
    requires forall other :: other in Known(after) <==> other in Known(s) && other != pack
    ensures Roles(after)
  {
    hide Known;
  }

  lemma AccountedForget(s: Leases, after: Leases, pack: Pack)
    requires Accounted(s) && pack in Known(s)
    requires after.handed == s.handed + [pack] && after.created == s.created
    requires forall other :: other in Known(after) <==> other in Known(s) && other != pack
    ensures Accounted(after)
  {
    hide Known;
  }

  lemma ReleaseKeeps(s: Leases, pack: Pack)
    requires Safe(s) && s.held[pack] > 0
    ensures Safe(Released(s, pack))
  {
    hide Safe, Forget;
    CountsHeld(s, pack);
    if s.held[pack] > 1 || s.current == Some(pack) {
      ReleaseInPlace(s, pack, Released(s, pack).leases);
    } else {
      ReleaseLast(s, pack);
    }
  }

  lemma CountsHeld(s: Leases, pack: Pack)
    requires Safe(s)
    ensures Count(s.leases, pack) == s.held[pack]
  {
  }

  lemma KnownAfterSwitch(s: Leases, made: Option<Pack>, epoch: nat, created: set<Pack>, other: Pack)
    requires Roles(s)
    ensures other in Known(s.(current := made, epoch := epoch, created := created)) <==>
            Some(other) == made || (other in Known(s) && s.current != Some(other))
  {
  }

  /** The current pack goes unleased: it is handed off and the new one takes its place. */
  lemma ReplaceUnleased(s: Leases, made: Option<Pack>, pack: Pack)
    requires Safe(s) && s.current == Some(pack) && Count(s.leases, pack) == 0
    requires made.Some? ==> made.value !in s.created
    ensures Safe(RetirePack(Switched(s, made), pack))
  {
    var s1 := Switched(s, made);
    var after := Forget(s1, pack);
    assert pack in Known(s);
    assert made.Some? ==> made.value !in Known(s) && made.value !in s.handed;
    forall other ensures other in Known(after) <==> (other in Known(s) && other != pack) || Some(other) == made {
      KnownAfterSwitch(s, made, s1.epoch, s1.created, other);
      KnownAfterForget(s1, pack, other);
    }
    SwitchCounts(s, s1, after);
    CurrentKnown(s);
    assert pack !in s.leases;
    hide Known, Counted, Count;
    assert after.historical == s.historical && after.retired == s.retired;
    assert Accounted(after);
    hide Accounted, Forget, Switched, RetirePack;
    ReplacedRoles(s, after, made);
  }

  /** Roles after the unleased current pack made way. */
  lemma ReplacedRoles(s: Leases, after: Leases, made: Option<Pack>)
    requires Roles(s) && s.current.Some? && s.current.value !in s.leases
    requires after.historical == s.historical && after.retired == s.retired && after.leases == s.leases
    requires after.current == made && (made.Some? ==> made.value !in Known(s))
    requires forall other ::
               other in Known(after) <==> (other in Known(s) && Some(other) != s.current) || Some(other) == made
    ensures Roles(after)
  {
    CurrentKnown(s);
    hide Known;
  }

  lemma SwitchCounts(s: Leases, s1: Leases, after: Leases)
    requires Counted(s) && s1.leases == s.leases && s1.held == s.held
    requires after.leases == s1.leases && after.held == s1.held
    ensures Counted(after)
  {
  }

  /** The current pack is still leased: it stays known under its version or among the retired. */
  lemma ReplaceLeased(s: Leases, made: Option<Pack>, pack: Pack)
    requires Safe(s) && s.current == Some(pack) && Count(s.leases, pack) > 0
    requires made.Some? ==> made.value !in s.created
    ensures Safe(RetirePack(Switched(s, made), pack))
  {
    var s1 := Switched(s, made);
    var after := RetirePack(s1, pack);
    assert pack in Known(s);
    assert made.Some? ==> made.value !in Known(s) && made.value !in s.handed;
    forall other ensures other in Known(after) <==> other in Known(s) || Some(other) == made {
      KnownAfterSwitch(s, made, s1.epoch, s1.created, other);
      if pack.version !in s.historical { KnownAfterNaming(s1, pack.version, pack, other); }
    }
    SwitchCounts(s, s1, after);
    assert pack in s.leases;
    hide Known, Counted, Count;
    assert Accounted(after);
    hide Accounted;
    KeptRoles(s, after, made, pack);
  }

  /** Roles after the leased current pack made way: it is kept under its version, or retired. */
  lemma KeptRoles(s: Leases, after: Leases, made: Option<Pack>, pack: Pack)
    requires Roles(s) && s.current == Some(pack) && pack in s.leases && after.leases == s.leases
    requires after.current == made && (made.Some? ==> made.value !in Known(s))
    requires if pack.version !in s.historical
             then after.historical == s.historical[pack.version := pack] && after.retired == s.retired
             else after.historical == s.historical
                  && after.retired == if s.historical[pack.version] != pack then s.retired + {pack} else s.retired
    requires forall other :: other in Known(after) <==> other in Known(s) || Some(other) == made
    ensures Roles(after)
  {
    CurrentKnown(s);
    hide Known;
  }

  lemma FillEmpty(s: Leases, made: Option<Pack>)
    requires Safe(s) && s.current == None
    requires made.Some? ==> made.value !in s.created
    ensures Safe(Switched(s, made))
  {
    var s1 := Switched(s, made);
    assert made.Some? ==> made.value !in Known(s) && made.value !in s.handed;
    forall other ensures other in Known(s1) <==> other in Known(s) || Some(other) == made {
      KnownAfterSwitch(s, made, s1.epoch, s1.created, other);
    }
    hide Known;
  }

  lemma ReloadKeeps(s: Leases, made: Option<Pack>)
    requires Safe(s)
    requires made.Some? ==> made.value !in s.created
    ensures Safe(Reloaded(s, made))
  {
    hide Safe, Forget, Known, Switched, RetirePack;
    var s1 := Switched(s, made);
    if s.current.None? {
      FillEmpty(s, made);
    } else if Count(s.leases, s.current.value) == 0 {
      ReplaceUnleased(s, made, s.current.value);
    } else {
      ReplaceLeased(s, made, s.current.value);
    }
  }

  lemma DistinctConcat(left: seq<Pack>, right: seq<Pack>)
    requires DistinctPacks(left) && DistinctPacks(right)
    requires forall pack :: pack in left ==> pack !in right
    ensures DistinctPacks(left + right)
  {
    var all := left + right;
    forall i, j | 0 <= i < j < |all| ensures all[i] != all[j] {
      if i < |left| <= j { assert left[i] in left && all[j] in right; }
    }
  }

  lemma CloseKeeps(s: Leases, closing: seq<Pack>)
    requires Safe(s) && Closing(s, closing)
    ensures Safe(Closed(s, closing))
  {
    var after := Closed(s, closing);
    assert Known(after) == after.retired;
    DistinctConcat(s.handed, closing);
    hide Known, DistinctPacks;
  }

  /* ---- Whole runs. ---- */

  datatype Action =
    | Acquire(version: Option<Text>, made: Option<Pack>)
    | Release(pack: Pack)
    | Reload(replacement: Option<Pack>)
    | Close(closing: seq<Pack>)

  /** What the code allows: opening makes a new object, and only a held lease is released. */
  ghost predicate Allowed(s: Leases, action: Action) {
    match action
    case Acquire(version, made) =>
      made.Some? ==> made.value !in s.created && version == Some(made.value.version)
    case Release(pack) => s.held[pack] > 0
    case Reload(replacement) => replacement.Some? ==> replacement.value !in s.created
    case Close(closing) => Closing(s, closing)
  }

  function Performed(s: Leases, action: Action): Leases {
    match action
    case Acquire(version, made) => Acquired(s, version, made)
    case Release(pack) => Released(s, pack)
    case Reload(replacement) => Reloaded(s, replacement)
    case Close(closing) => Closed(s, closing)
  }

  ghost predicate IsRun(run: seq<Leases>, actions: seq<Action>) {
    && |run| == |actions| + 1 && run[0] == NO_PACKS
    && (forall i :: 0 <= i < |actions| ==> Allowed(run[i], actions[i]) && run[i + 1] == Performed(run[i], actions[i]))
  }

  /** Over every run of acquire, release, reload and close, in any order. */
  lemma {:induction false} EveryRunSafe(run: seq<Leases>, actions: seq<Action>, i: nat)
    requires IsRun(run, actions) && i < |run|
    ensures Safe(run[i])
  {
    hide Safe, Acquired, Released, Reloaded, Closed, Closing;
    if i == 0 {
      NothingIsSafe();
    } else {
      EveryRunSafe(run, actions, i - 1);
      var s := run[i - 1];
      match actions[i - 1]
      case Acquire(version, made) => AcquireKeeps(s, version, made);
      case Release(pack) => ReleaseKeeps(s, pack);
      case Reload(replacement) => ReloadKeeps(s, replacement);
      case Close(closing) => CloseKeeps(s, closing);
    }
  }

  lemma NothingIsSafe()
    ensures Safe(NO_PACKS)
  {
  }

  /** Once handed off, a pack is never leased again and never handed off a second time. */
  lemma {:induction false} HandedStaysHanded(run: seq<Leases>, actions: seq<Action>, i: nat, j: nat, pack: Pack)
    requires IsRun(run, actions) && i <= j < |run| && pack in run[i].handed
    ensures pack in run[j].handed && run[j].held[pack] == 0
    decreases j
  {
    hide Safe, Performed, Allowed;
    EveryRunSafe(run, actions, j);
    SafeMeans(run[j], pack);
    if i < j {
      HandedStaysHanded(run, actions, i, j - 1, pack);
      HandedGrows(run[j - 1], actions[j - 1], pack);
    }
  }

  lemma HandedGrows(s: Leases, action: Action, pack: Pack)
    requires pack in s.handed
    ensures pack in Performed(s, action).handed
  {
  }

  /* ---- The store's fields, updated in place. ---- */

  class PackTable {
    var current: Option<Pack>
    var epoch: nat
    var leases: map<Pack, nat>
    var retired: set<Pack>
    var historical: map<Text, Pack>
    ghost var handed: seq<Pack>
    ghost var held: multiset<Pack>
    ghost var created: set<Pack>

    ghost function State(): Leases
      reads this
    {
      Leases(current, epoch, leases, retired, historical, handed, held, created)
    }

    constructor ()
      ensures State() == NO_PACKS
    {
      current, epoch, leases, retired, historical := None, 0, map[], {}, map[];
      handed, held, created := [], multiset{}, {};
    }

    /** Finds or opens the pack a request gets. */
    method Find(version: Option<Text>, made: Option<Pack>) returns (pack: Option<Pack>)
      modifies this
      ensures pack == Choose(old(State()), version, made)
      ensures State() == Opened(old(State()), version, made)
    {
      if version.None? {
        return current;
      }
      if current.Some? && current.value.version == version.value {
        return current;
      }
      if version.value in historical {
        return Some(historical[version.value]);
      }
      if made.Some? {
        historical := historical[version.value := made.value];
        created := created + {made.value};
      }
      pack := made;
    }

    /** `made` is what opening the version yields, should it have to be opened. */
    method AcquireSnapshot(version: Option<Text>, made: Option<Pack>) returns (pack: Option<Pack>, atEpoch: nat)
      requires Safe(State())
      requires made.Some? ==> made.value !in created && version == Some(made.value.version)
      modifies this
      ensures State() == Acquired(old(State()), version, made) && Safe(State())
      ensures pack == Choose(old(State()), version, made) && atEpoch == epoch
      ensures pack.Some? ==> held[pack.value] > 0 && pack.value !in handed
      ensures version.None? ==> pack == old(current)
      ensures version.Some? && pack.Some? ==> pack.value.version == version.value
      ensures current == old(current) && epoch == old(epoch)
    {
      ChosenIsAskedFor(State(), version, made);
      hide Safe, Choose, Opened;
      AcquireKeeps(State(), version, made);
      AcquiredLeased(State(), version, made);
      pack := Find(version, made);
      atEpoch := epoch;
      if pack.Some? {
        leases := leases[pack.value := Count(leases, pack.value) + 1];
        held := held + multiset{pack.value};
      }
    }

    /** The end of a lease; the pack to close, if it was the last one of a replaced pack. */
    method ReleaseSnapshot(pack: Pack) returns (close: Option<Pack>)
      requires Safe(State()) && held[pack] > 0
      modifies this
      ensures State() == Released(old(State()), pack) && Safe(State())
      ensures handed == old(handed) + (if close.Some? then [close.value] else [])
      ensures close == if old(held[pack]) == 1 && current != Some(pack) then Some(pack) else None
      ensures close.Some? ==> close.value !in old(handed)
      ensures current == old(current) && epoch == old(epoch) && held == old(held) - multiset{pack}
    {
      hide Safe;
      ReleaseKeeps(State(), pack);
      SafeMeans(State(), pack);
      CountsHeld(State(), pack);
      close := None;
      var remaining := Count(leases, pack) - 1;
      held := held - multiset{pack};
      if remaining > 0 {
        leases := leases[pack := remaining];
      } else {
        leases := leases - {pack};
        if current != Some(pack) {
          if Names(historical, pack) {
            historical := historical - {pack.version};
          }
          retired := retired - {pack};
          close := Some(pack);
          handed := handed + [pack];
        }
      }
    }

    /** `_reload_pack_unleased`: swaps the active pack; the old one is returned once nobody reads it. */
    method ReloadActive(replacement: Option<Pack>) returns (close: Option<Pack>)
      requires Safe(State())
      requires replacement.Some? ==> replacement.value !in created
      modifies this
      ensures State() == Reloaded(old(State()), replacement) && Safe(State())
      ensures handed == old(handed) + (if close.Some? then [close.value] else [])
      ensures current == replacement && epoch == old(epoch) + 1 && held == old(held) && leases == old(leases)
      ensures close == if old(current).Some? && Count(leases, old(current).value) == 0 then old(current) else None
    {
      hide Safe, RetirePack, Count;
      ReloadKeeps(State(), replacement);
      var previous := current;
      current := replacement;
      epoch := epoch + 1;
      if replacement.Some? {
        created := created + {replacement.value};
      }
      close := None;
      if previous.Some? {
        close := Retire(previous.value);
      }
    }

    /** `_retire_pack_locked`. */
    method Retire(pack: Pack) returns (close: Option<Pack>)
      modifies this
      ensures State() == RetirePack(old(State()), pack)
      ensures close == if Count(leases, pack) == 0 then Some(pack) else None
      ensures current == old(current) && epoch == old(epoch) && held == old(held) && leases == old(leases)
      ensures handed == old(handed) + (if close.Some? then [close.value] else [])
    {
      close := None;
      if Count(leases, pack) > 0 {
        if pack.version !in historical {
          historical := historical[pack.version := pack];
        } else if historical[pack.version] != pack {
          retired := retired + {pack};
        }
      } else {
        if Names(historical, pack) {
          historical := historical - {pack.version};
        }
        retired := retired - {pack};
        close := Some(pack);
        handed := handed + [pack];
      }
    }

    /** The loop of `close`: leased packs go back to the retired, the others are to be closed. */
    method Sort(packs: set<Pack>) returns (closing: seq<Pack>)
      requires retired == {}
      modifies this`retired
      ensures DistinctPacks(closing)
      ensures forall pack :: pack in closing <==> pack in packs && Count(leases, pack) == 0
      ensures retired == set pack | pack in packs && Count(leases, pack) > 0
    {
      closing := [];
      var rest := packs;
      while rest != {}
        invariant rest <= packs && DistinctPacks(closing)
        invariant forall pack :: pack in closing <==> pack in packs - rest && Count(leases, pack) == 0
        invariant forall pack :: pack in retired <==> pack in packs - rest && Count(leases, pack) > 0
        decreases |rest|
      {
        var pack :| pack in rest;
        rest := rest - {pack};
        if Count(leases, pack) > 0 {
          retired := retired + {pack};
        } else {
          closing := closing + [pack];
        }
      }
    }

    /** `close`: what is leased waits among the retired, everything else is closed now. */
    method CloseAll() returns (closing: seq<Pack>)
      requires Safe(State())
      modifies this
      ensures Closing(old(State()), closing) && State() == Closed(old(State()), closing) && Safe(State())
      ensures current.None? && historical == map[] && epoch == old(epoch) + 1 && held == old(held)
      ensures forall pack :: pack in created ==> (pack in handed <==> held[pack] == 0)
    {
      hide Safe;
      ghost var before := State();
      var packs := (set version | version in historical :: historical[version]) + retired;
      if current.Some? {
        packs := packs + {current.value};
      }
      assert packs == Known(before);
      current, historical, retired := None, map[], {};
      epoch := epoch + 1;
      closing := Sort(packs);
      handed := handed + closing;
      CloseKeeps(before, closing);
      forall pack | pack in created ensures pack in handed <==> held[pack] == 0 {
        SafeMeans(State(), pack);
      }
    }
  }
}
