/** What kind of conflict a game is in, and the two transactions that pour one game's media into another. */
module LibraryMerge {
  import opened Extremes
  import opened LibraryTables

  // ---- classification ----

  datatype Kind = NoConflict | MergeConflict | SplitConflict | ManualConflict

  /** Banks of the media that a game owns. */
  function BanksOfGame(db: Db, game: nat): set<BankKey> {
    set k | k in db.banks && Owned(db, k.media, game)
  }

  /** SELECT DISTINCT ra_game_id, leaving out NULL. */
  function RaIdsOf(db: Db, game: nat): set<nat> {
    set k | k in BanksOfGame(db, game) && db.banks[k].ra != 0 :: db.banks[k].ra
  }

  function BanksOf(db: Db, m: nat): set<BankKey> {
    set k | k in db.banks && k.media == m
  }

  function RaIdsOfMedia(db: Db, m: nat): set<nat> {
    set k | k in BanksOf(db, m) && db.banks[k].ra != 0 :: db.banks[k].ra
  }

  predicate AllIdentified(db: Db, banks: set<BankKey>) {
    forall k :: k in banks && k in db.banks ==> db.banks[k].state == IDENTIFIED
  }

  /** A medium that has banks, all identified, with one id between them. */
  predicate Whole(db: Db, m: nat) {
    |RaIdsOfMedia(db, m)| == 1 && AllIdentified(db, BanksOf(db, m))
  }

  /** Conflicting games whose banks are all identified as this one id. */
  function MergeSet(db: Db, ra: nat): set<nat> {
    set g | g in db.games && db.games[g].state == CONFLICT && RaIdsOf(db, g) == {ra} &&
      AllIdentified(db, BanksOfGame(db, g))
  }

  predicate ExternalMatch(db: Db, game: nat) {
    exists k :: k in db.banks && k.media in db.media && db.media[k.media].In? && db.media[k.media].game != game &&
      db.banks[k].ra in RaIdsOf(db, game)
  }

  /** InspectGameConflict; nothing when the game does not exist. */
  ghost function Inspect(db: Db, game: nat): Option<Kind> {
    if game !in db.games then Nil
    else if db.games[game].state != CONFLICT then Just(NoConflict)
    else
      var ids := RaIdsOf(db, game);
      if ids == {} then Just(ManualConflict)
      else if |ids| == 1 then Just(if |MergeSet(db, Lowest(ids))| >= 2 then MergeConflict else ManualConflict)
      else Just(
        if (forall m :: m in MediaOf(db, game) && BanksOf(db, m) != {} ==> Whole(db, m)) && !ExternalMatch(db, game)
        then SplitConflict else ManualConflict)
  }

  // ---- moving media ----

  /** The media move one row at a time, to consecutive ordinals from next. */
  function MoveAll(db: Db, items: seq<nat>, source: nat, target: nat, next: nat): Option<Db>
    decreases |items|
  {
    if items == [] then Just(db)
    else match Move(db, items[0], source, target, next)
      case Nil => Nil
      case Just(moved) => MoveAll(moved, items[1..], source, target, next + 1)
  }

  /** What moving all of them comes to. */
  function Moved(db: Db, items: seq<nat>, target: nat, next: nat): Db
    decreases |items|
  {
    if items == [] then db else Moved(WithPlace(db, items[0], target, next), items[1..], target, next + 1)
  }

  /** COALESCE(MAX(ordinal), -1) + 1. */
  ghost function NextOrdinal(db: Db, game: nat): nat {
    var ordinals := set m | m in db.media && Owned(db, m, game) :: db.media[m].ordinal;
    if ordinals == {} then 0 else Highest(ordinals) + 1
  }

  /** One source game poured into the target: profiles, media, and then the game itself. */
  ghost function PourInto(db: Db, source: nat, target: nat, next: nat): Option<Db> {
    match MoveAll(WithoutProfiles(db, source), MediaList(db, source), source, target, next)
    case Nil => Nil
    case Just(moved) => DropGame(moved, source)
  }

  predicate AllVacantFrom(db: Db, game: nat, next: nat) {
    forall m :: m in db.media && Owned(db, m, game) ==> db.media[m].ordinal < next
  }

  /** Media without launch profiles, all of one other game, never collide on their way. */
  lemma {:induction false} MoveAllSucceeds(db: Db, items: seq<nat>, source: nat, target: nat, next: nat)
    requires Constraints(db) && target in db.games && source != target && AllVacantFrom(db, target, next)
    requires forall k :: 0 <= k < |items| ==> Owned(db, items[k], source) && NoProfilesOn(db, items[k])
    requires forall i, j :: 0 <= i < j < |items| ==> items[i] != items[j]
    ensures MoveAll(db, items, source, target, next) == Just(Moved(db, items, target, next))
    ensures Constraints(Moved(db, items, target, next))
    ensures AllVacantFrom(Moved(db, items, target, next), target, next + |items|)
    decreases |items|
  {
    hide Constraints;
    if items != [] {
      var after := WithPlace(db, items[0], target, next);
      MoveKeeps(db, items[0], target, next);
      assert Move(db, items[0], source, target, next) == Just(after);
      forall k | 0 <= k < |items[1..]|
        ensures Owned(after, items[1..][k], source) && NoProfilesOn(after, items[1..][k])
      {
        assert items[1..][k] == items[k + 1];
        assert NoProfilesOn(db, items[k + 1]);
      }
      MoveAllSucceeds(after, items[1..], source, target, next + 1);
    }
  }

  /** Exactly the listed media change place, each to the ordinal of its position. */
  lemma {:induction false} MovedPlaces(db: Db, items: seq<nat>, target: nat, next: nat)
    requires forall k :: 0 <= k < |items| ==> items[k] in db.media
    requires forall i, j :: 0 <= i < j < |items| ==> items[i] != items[j]
    ensures var after := Moved(db, items, target, next);
      && after == db.(media := after.media) && after.media.Keys == db.media.Keys
      && (forall k :: 0 <= k < |items| ==> after.media[items[k]] == In(target, next + k))
      && (forall m :: m in db.media && m !in items ==> after.media[m] == db.media[m])
    decreases |items|
  {
    if items != [] {
      var step := WithPlace(db, items[0], target, next);
      assert forall k :: 0 <= k < |items[1..]| ==> items[1..][k] == items[k + 1];
      MovedPlaces(step, items[1..], target, next + 1);
      var after := Moved(db, items, target, next);
      forall k | 0 <= k < |items|
        ensures after.media[items[k]] == In(target, next + k)
      {
        if k > 0 { assert items[k] == items[1..][k - 1]; }
      }
    }
  }

  /** Media rows the two databases agree on, except those of source, which are the target's now. */
  ghost predicate Poured(db: Db, after: Db, source: nat, target: nat) {
    && after.media.Keys == db.media.Keys && after.banks == db.banks && after.progress == db.progress
    && after.games == db.games - {source}
    && (forall m :: m in db.media && !Owned(db, m, source) ==> after.media[m] == db.media[m])
    && (forall m :: Owned(db, m, source) ==> Owned(after, m, target))
    && (forall p :: p in after.profiles <==> p in db.profiles && p.game != source)
    && (forall p :: p in after.profiles ==> after.profiles[p] == db.profiles[p])
  }

  /** The source's media keep their order, after everything the target had. */
  ghost predicate KeepsOrder(db: Db, after: Db, source: nat, next: nat) {
    forall m, n :: Owned(db, m, source) && Owned(db, n, source) && db.media[m].ordinal < db.media[n].ordinal ==>
      && m in after.media && n in after.media && after.media[m].In? && after.media[n].In?
      && next <= after.media[m].ordinal < after.media[n].ordinal
  }

  /** The source's media are numbered on from next, without a gap. */
  ghost predicate NumberedOn(db: Db, after: Db, source: nat, target: nat, next: nat) {
    forall k :: 0 <= k < |MediaList(db, source)| ==>
      MediaList(db, source)[k] in after.media && after.media[MediaList(db, source)[k]] == In(target, next + k)
  }

  /** The media of the source, moved; the source has neither media nor profiles then. */
  lemma PourMoves(db: Db, source: nat, target: nat, next: nat)
    requires Constraints(db) && source in db.games && target in db.games && source != target
    requires AllVacantFrom(db, target, next)
    ensures var bare, items := WithoutProfiles(db, source), MediaList(db, source);
      var moved := Moved(bare, items, target, next);
      && MoveAll(bare, items, source, target, next) == Just(moved) && Constraints(moved)
      && AllVacantFrom(moved, target, next + |items|)
      && moved == bare.(media := moved.media) && moved.media.Keys == db.media.Keys
      && (forall k :: 0 <= k < |items| ==> moved.media[items[k]] == In(target, next + k))
      && (forall m :: m in db.media && m !in items ==> moved.media[m] == db.media[m])
  {
    hide Constraints;
    var items := MediaList(db, source);
    ConstraintParts(db);
    MediaListIs(db, source);
    RisingDistinct(db, items);
    WithoutProfilesKeeps(db, source);
    MoveAllSucceeds(WithoutProfiles(db, source), items, source, target, next);
    MovedPlaces(WithoutProfiles(db, source), items, target, next);
  }

  lemma PourEmpties(db: Db, moved: Db, source: nat, target: nat, next: nat, items: seq<nat>)
    requires moved == WithoutProfiles(db, source).(media := moved.media) && moved.media.Keys == db.media.Keys
    requires source != target && forall m :: m in items <==> Owned(db, m, source)
    requires forall k :: 0 <= k < |items| ==> items[k] in moved.media && moved.media[items[k]] == In(target, next + k)
    requires forall m :: m in db.media && m !in items ==> moved.media[m] == db.media[m]
    ensures MediaOf(moved, source) == {} && SlotsOf(moved, source) == {}
  {
    forall m | m in moved.media
      ensures !Owned(moved, m, source)
    {
      if m in items {
        var k :| 0 <= k < |items| && items[k] == m;
        assert moved.media[items[k]] == In(target, next + k);
      }
    }
  }

  /** Pouring one game into another never breaks a constraint on the way, and loses no medium. */
  lemma PourSucceeds(db: Db, source: nat, target: nat, next: nat)
    requires Constraints(db) && source in db.games && target in db.games && source != target
    requires AllVacantFrom(db, target, next)
    ensures PourInto(db, source, target, next).Just?
    ensures var after := PourInto(db, source, target, next).value;
      && Constraints(after) && Poured(db, after, source, target) && KeepsOrder(db, after, source, next)
      && NumberedOn(db, after, source, target, next) && AllVacantFrom(after, target, next + |MediaList(db, source)|)
  {
    hide Constraints, KeepsOrder, Poured, WithoutProfiles, MoveAll, MediaList;
    var items := MediaList(db, source);
    ConstraintParts(db);
    MediaListIs(db, source);
    PourMoves(db, source, target, next);
    var moved := Moved(WithoutProfiles(db, source), items, target, next);
    BareFrame(db, source);
    PourEmpties(db, moved, source, target, next, items);
    DropGameKeeps(moved, source);
    PouredPlaces(db, moved.(games := moved.games - {source}), source, target, next, items);
  }

  lemma BareFrame(db: Db, game: nat)
    ensures WithoutProfiles(db, game) == db.(profiles := WithoutProfiles(db, game).profiles)
  {
  }

  lemma ConstraintParts(db: Db)
    requires Constraints(db)
    ensures UniqueOrdinals(db) && OwnersExist(db)
  {
  }

  lemma PouredPlaces(db: Db, after: Db, source: nat, target: nat, next: nat, items: seq<nat>)
    requires after.media.Keys == db.media.Keys && after.banks == db.banks && after.games == db.games - {source}
    requires after.progress == db.progress
    requires after.profiles == WithoutProfiles(db, source).profiles
    requires forall m :: m in items <==> Owned(db, m, source)
    requires Rising(db, items)
    requires forall k :: 0 <= k < |items| ==> after.media[items[k]] == In(target, next + k)
    requires forall m :: m in db.media && m !in items ==> after.media[m] == db.media[m]
    ensures Poured(db, after, source, target) && KeepsOrder(db, after, source, next)
  {
    forall m | Owned(db, m, source)
      ensures Owned(after, m, target)
    {
      var k :| 0 <= k < |items| && items[k] == m;
      assert after.media[items[k]] == In(target, next + k);
    }
    forall m, n | Owned(db, m, source) && Owned(db, n, source) && db.media[m].ordinal < db.media[n].ordinal
      ensures after.media[m].In? && after.media[n].In? && next <= after.media[m].ordinal < after.media[n].ordinal
    {
      var i :| 0 <= i < |items| && items[i] == m;
      var j :| 0 <= j < |items| && items[j] == n;
      assert after.media[items[i]] == In(target, next + i) && after.media[items[j]] == In(target, next + j);
    }
  }

  /** The next ordinal is one more than the highest in use, and 0 for a game without media. */
  lemma NextOrdinalIsVacant(db: Db, game: nat)
    ensures AllVacantFrom(db, game, NextOrdinal(db, game))
    ensures NextOrdinal(db, game) > 0 ==> exists m :: Owned(db, m, game) && db.media[m].ordinal == NextOrdinal(db, game) - 1
  {
    var ordinals := set i | i in db.media && Owned(db, i, game) :: db.media[i].ordinal;
    forall m | m in db.media && Owned(db, m, game)
      ensures db.media[m].ordinal < NextOrdinal(db, game)
    {
      assert db.media[m].ordinal in ordinals;
    }
    if ordinals != {} {
      var top :| top in ordinals && top == Highest(ordinals);
      var m :| m in db.media && Owned(db, m, game) && db.media[m].ordinal == top;
    }
  }

  // ---- MergeGameMedia ----

  ghost function MergeGameMedia(db: Db, target: nat, source: nat): Option<Db> {
    if target == 0 || source == 0 || target == source then Nil
    else if target !in db.games || source !in db.games then Nil
    else if MediaList(db, source) == [] then Nil
    else PourInto(db, source, target, NextOrdinal(db, target))
  }

  /** The transaction commits for every two different games of which the source has media. */
  lemma MergeGameMediaExactly(db: Db, target: nat, source: nat)
    requires Constraints(db)
    ensures MergeGameMedia(db, target, source).Just? <==>
      && target != 0 && source != 0 && target != source && target in db.games && source in db.games
      && MediaList(db, source) != []
    ensures MergeGameMedia(db, target, source).Just? ==>
      var after := MergeGameMedia(db, target, source).value;
      && Constraints(after) && Poured(db, after, source, target) && KeepsOrder(db, after, source, NextOrdinal(db, target))
      && NumberedOn(db, after, source, target, NextOrdinal(db, target))
  {
    hide Constraints, Poured, KeepsOrder, NumberedOn, PourInto, MediaList, NextOrdinal;
    NextOrdinalIsVacant(db, target);
    if target in db.games && source in db.games && target != source {
      PourSucceeds(db, source, target, NextOrdinal(db, target));
    }
  }

  // ---- MERGE ----

  predicate Increasing(items: seq<nat>) {
    forall i, j :: 0 <= i < j < |items| ==> items[i] < items[j]
  }

  ghost function Ascending(ids: set<nat>): (items: seq<nat>)
    ensures forall i :: i in items <==> i in ids
    ensures Increasing(items)
  {
    if ids == {} then []
    else
      var rest := Ascending(ids - {Lowest(ids)});
      LowestFirst(ids, rest);
      [Lowest(ids)] + rest
  }

  lemma LowestFirst(ids: set<nat>, rest: seq<nat>)
    requires ids != {} && Increasing(rest) && forall i :: i in rest <==> i in ids - {Lowest(ids)}
    ensures Increasing([Lowest(ids)] + rest) && forall i :: i in [Lowest(ids)] + rest <==> i in ids
  {
    forall k | 0 <= k < |rest|
      ensures Lowest(ids) < rest[k]
    {
      assert rest[k] in rest;
    }
  }

  ghost function MergeAll(db: Db, sources: seq<nat>, target: nat, next: nat): Option<Db>
    decreases |sources|
  {
    if sources == [] then Just(db)
    else match PourInto(db, sources[0], target, next)
      case Nil => Nil
      case Just(after) => MergeAll(after, sources[1..], target, next + |MediaList(db, sources[0])|)
  }

  ghost function Merge(db: Db, ra: nat): Option<Db> {
    var games := MergeSet(db, ra);
    if |games| < 2 then Nil
    else
      var target := Lowest(games);
      match MergeAll(db, Ascending(games - {target}), target, NextOrdinal(db, target))
      case Nil => Nil
      case Just(after) => Identify(after, target, ra)
  }

  /** Every medium of the sources is the target's, and all others are where they were. */
  ghost predicate MergedMedia(db: Db, after: Db, sources: seq<nat>, target: nat) {
    && after.media.Keys == db.media.Keys
    && (forall m :: m in db.media && !(db.media[m].In? && db.media[m].game in sources) ==> after.media[m] == db.media[m])
    && (forall m :: m in db.media && db.media[m].In? && db.media[m].game in sources ==> Owned(after, m, target))
  }

  /** The sources and their launch profiles are gone, and everything else is as it was. */
  ghost predicate MergedRows(db: Db, after: Db, sources: seq<nat>) {
    && after.banks == db.banks && after.progress == db.progress
    && (forall g :: g in after.games <==> g in db.games && g !in sources)
    && (forall g :: g in after.games ==> after.games[g] == db.games[g])
    && (forall p :: p in after.profiles <==> p in db.profiles && p.game !in sources)
    && (forall p :: p in after.profiles ==> after.profiles[p] == db.profiles[p])
  }

  lemma {:induction false} MergeAllSucceeds(db: Db, sources: seq<nat>, target: nat, next: nat)
    requires Constraints(db) && target in db.games && target !in sources && AllVacantFrom(db, target, next)
    requires forall k :: 0 <= k < |sources| ==> sources[k] in db.games
    requires forall i, j :: 0 <= i < j < |sources| ==> sources[i] != sources[j]
    ensures MergeAll(db, sources, target, next).Just?
    ensures var after := MergeAll(db, sources, target, next).value;
      Constraints(after) && MergedMedia(db, after, sources, target) && MergedRows(db, after, sources)
    decreases |sources|
  {
    hide Constraints, MergedMedia, MergedRows, Poured, KeepsOrder, PourInto, MediaList, AllVacantFrom;
    if sources == [] {
      MergedNothing(db, target);
    } else {
      var source, rest := sources[0], sources[1..];
      PourSucceeds(db, source, target, next);
      var step := PourInto(db, source, target, next).value;
      PouredGames(db, step, sources, target);
      var after := next + |MediaList(db, source)|;
      MergeAllSucceeds(step, rest, target, after);
      MergedChains(db, step, MergeAll(step, rest, target, after).value, sources, target);
    }
  }

  lemma MergedChains(db: Db, step: Db, after: Db, sources: seq<nat>, target: nat)
    requires sources != [] && Poured(db, step, sources[0], target) && target !in sources
    requires forall i, j :: 0 <= i < j < |sources| ==> sources[i] != sources[j]
    requires MergedMedia(step, after, sources[1..], target) && MergedRows(step, after, sources[1..])
    ensures MergedMedia(db, after, sources, target) && MergedRows(db, after, sources)
  {
    hide MergedMedia, MergedRows, Poured;
    assert sources == [sources[0]] + sources[1..];
    MergedMediaChains(db, step, after, sources[0], sources[1..], target);
    MergedRowsChain(db, step, after, sources[0], sources[1..], target);
  }

  lemma MergedNothing(db: Db, target: nat)
    ensures MergedMedia(db, db, [], target) && MergedRows(db, db, [])
  {
  }

  lemma PouredGames(db: Db, step: Db, sources: seq<nat>, target: nat)
    requires sources != [] && Poured(db, step, sources[0], target) && target in db.games && target !in sources
    requires forall k :: 0 <= k < |sources| ==> sources[k] in db.games
    requires forall i, j :: 0 <= i < j < |sources| ==> sources[i] != sources[j]
    ensures target in step.games && target !in sources[1..]
    ensures forall k :: 0 <= k < |sources[1..]| ==> sources[1..][k] in step.games
    ensures forall i, j :: 0 <= i < j < |sources[1..]| ==> sources[1..][i] != sources[1..][j]
  {
  }

  lemma MergedMediaChains(db: Db, step: Db, after: Db, source: nat, rest: seq<nat>, target: nat)
    requires Poured(db, step, source, target) && MergedMedia(step, after, rest, target)
    requires target != source && target !in rest && source !in rest
    ensures MergedMedia(db, after, [source] + rest, target)
  {
    forall m | m in db.media && db.media[m].In? && db.media[m].game in [source] + rest
      ensures Owned(after, m, target)
    {
      if db.media[m].game == source {
        assert Owned(db, m, source) && Owned(step, m, target);
      } else {
        assert !Owned(db, m, source) && step.media[m] == db.media[m];
      }
    }
  }

  lemma MergedRowsChain(db: Db, step: Db, after: Db, source: nat, rest: seq<nat>, target: nat)
    requires Poured(db, step, source, target) && MergedRows(step, after, rest)
    ensures MergedRows(db, after, [source] + rest)
  {
  }

  /** What MERGE leaves: the lowest game has every medium, the other games and their launch profiles are gone. */
  ghost predicate MergedInto(db: Db, after: Db, games: set<nat>, ra: nat)
    requires games != {}
  {
    var target := Lowest(games);
    && after.games.Keys == db.games.Keys - games + {target} && after.games[target] == Game(ra, IDENTIFIED)
    && (forall h :: h in after.games && h != target ==> after.games[h] == db.games[h])
    && after.media.Keys == db.media.Keys && after.banks == db.banks && after.progress == db.progress
    && (forall m :: m in db.media ==>
          if db.media[m].In? && db.media[m].game in games - {target} then Owned(after, m, target)
          else after.media[m] == db.media[m])
    && (forall p :: p in after.profiles <==> p in db.profiles && p.game !in games - {target})
    && (forall p :: p in after.profiles ==> after.profiles[p] == db.profiles[p])
  }

  /**
   * MERGE commits exactly when no game outside the merge holds the RA id, and then the lowest game owns
   * every medium of the merged games, whose launch profiles are gone, and nothing else has changed.
   */
  lemma MergeExactly(db: Db, ra: nat)
    requires Constraints(db) && |MergeSet(db, ra)| >= 2 && ra != 0
    ensures Merge(db, ra).Just? <==>
      forall h :: h in db.games && h !in MergeSet(db, ra) ==> db.games[h].ra != ra
    ensures Merge(db, ra).Just? ==>
      Constraints(Merge(db, ra).value) && MergedInto(db, Merge(db, ra).value, MergeSet(db, ra), ra)
  {
    hide Constraints, MergedMedia, MergedRows, MergedInto, AllVacantFrom, NextOrdinal, MergeAll, RaIdsOf, WithGame;
    var games := MergeSet(db, ra);
    var target := Lowest(games);
    var sources := Ascending(games - {target});
    NextOrdinalIsVacant(db, target);
    SourcesAre(db, games, sources, target);
    MergeAllSucceeds(db, sources, target, NextOrdinal(db, target));
    var after := MergeAll(db, sources, target, NextOrdinal(db, target)).value;
    MergedGames(db, after, games, sources, target, ra);
    IdentifyKeepsExactly(after, target, ra);
    MergedReads(db, after, games, sources, ra);
  }

  lemma SourcesAre(db: Db, games: set<nat>, sources: seq<nat>, target: nat)
    requires games <= db.games.Keys && target in games && sources == Ascending(games - {target})
    ensures target !in sources && forall k :: 0 <= k < |sources| ==> sources[k] in db.games
    ensures forall i, j :: 0 <= i < j < |sources| ==> sources[i] != sources[j]
  {
    forall k | 0 <= k < |sources| ensures sources[k] in db.games {
      assert sources[k] in sources;
    }
  }

  lemma MergedGames(db: Db, after: Db, games: set<nat>, sources: seq<nat>, target: nat, ra: nat)
    requires MergedRows(db, after, sources) && target in games && games <= db.games.Keys
    requires forall g :: g in sources <==> g in games - {target}
    ensures target in after.games
    ensures (forall h :: h in after.games && h != target ==> after.games[h].ra != ra) <==>
      forall h :: h in db.games && h !in games ==> db.games[h].ra != ra
  {
    assert forall h :: h in after.games && h != target <==> h in db.games && h !in games;
  }

  lemma MergedReads(db: Db, after: Db, games: set<nat>, sources: seq<nat>, ra: nat)
    requires games != {} && games <= db.games.Keys
    requires MergedMedia(db, after, sources, Lowest(games)) && MergedRows(db, after, sources)
    requires forall g :: g in sources <==> g in games - {Lowest(games)}
    ensures MergedInto(db, WithGame(after, Lowest(games), ra, IDENTIFIED), games, ra)
  {
    var target := Lowest(games);
    var named := WithGame(after, target, ra, IDENTIFIED);
    assert named.games.Keys == db.games.Keys - games + {target};
    forall m | m in db.media
      ensures if db.media[m].In? && db.media[m].game in games - {target} then Owned(named, m, target)
        else named.media[m] == db.media[m]
    {
      assert Owned(named, m, target) <==> Owned(after, m, target);
    }
  }
}
