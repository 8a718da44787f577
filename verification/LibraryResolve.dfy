/** The whole SPLIT transaction and ResolveGameConflict, which commits one of the two or restores everything. */
module LibraryResolve {
  import opened Extremes
  import opened LibraryTables
  import opened LibraryMerge
  import opened LibrarySplit

  /** The media of a game that have banks, by ordinal: the rows the join lists. */
  ghost function SplitItems(db: Db, game: nat): seq<nat> {
    ByOrdinal(db, set m | m in MediaOf(db, game) && BanksOf(db, m) != {})
  }

  ghost function Split(db: Db, game: nat): Option<Db> {
    if !HasAnchor(db, game) then Nil
    else
      var items, anchor := SplitItems(db, game), AnchorOf(db, game);
      var anchorId := if anchor.media in items then RaOf(db, anchor.media) else 0;
      if anchorId == 0 then Nil
      else match MakeGames(WithoutProfiles(db, game), items, map[anchorId := game])
        case Nil => Nil
        case Just((made, dest)) =>
          match Distribute(made, game, items, dest, map[])
          case Nil => Nil
          case Just(placed) =>
            match Identify(placed, game, anchorId)
            case Nil => Nil
            case Just(named) => InsertAnchors(named, Ascending(dest.Keys), dest, items, anchorId, anchor)
  }

  /** ResolveGameConflict: the new database, and whether the transaction was committed. */
  ghost function Resolve(db: Db, game: nat): (Db, bool) {
    var kind := Inspect(db, game);
    if kind == Just(MergeConflict) then
      var merged := Merge(db, Lowest(RaIdsOf(db, game)));
      if merged.Just? then (merged.value, true) else (db, false)
    else if kind == Just(SplitConflict) then
      var split := Split(db, game);
      if split.Just? then (split.value, true) else (db, false)
    else (db, false)
  }

  // ---- when a split can commit ----

  ghost predicate AllWhole(db: Db, game: nat) {
    forall m :: Listed(db, m, game) ==> Whole(db, m)
  }

  /** Outside the game nobody holds any of its ids, and the game itself at most the anchor's. */
  ghost predicate IdsFree(db: Db, game: nat, anchorId: nat) {
    forall m, h :: Listed(db, m, game) && h in db.games && db.games[h].ra == RaOf(db, m) ==>
      h == game && RaOf(db, m) == anchorId
  }

  /** No medium without banks has an ordinal that the media of the anchor's id will be given. */
  ghost predicate OutOfTheWay(db: Db, game: nat, anchorId: nat) {
    ClearBelow(db, game, Count(db, SplitItems(db, game), anchorId))
  }

  // ---- what a split comes to ----

  /** A medium without banks stays in the old game. */
  ghost predicate Stays(db: Db, m: nat, game: nat) {
    Owned(db, m, game) && BanksOf(db, m) == {}
  }

  /** One resulting game: its id, its media, their numbers, and its one launch profile. */
  ghost predicate SplitGame(db: Db, after: Db, game: nat, id: nat, part: nat) {
    && part in after.games && after.games[part] == Game(id, IDENTIFIED)
    && (forall m :: Owned(after, m, part) <==>
          (Owned(db, m, game) && RaIdsOfMedia(db, m) == {id}) || (part == game && Stays(db, m, game)))
    && (exists n :: Contiguous(after, part, n))
    && SlotsOf(after, part) == {Slot(part, 0)} && FitsAnchor(after, part, after.profiles[Slot(part, 0)])
  }

  ghost predicate SplitInto(db: Db, after: Db, game: nat, dest: map<nat, nat>) {
    && after.media.Keys == db.media.Keys && after.banks == db.banks
    && (forall m :: m in db.media && !Listed(db, m, game) ==> after.media[m] == db.media[m])
    && (forall m :: Listed(db, m, game) ==> RaOf(db, m) in dest && Owned(after, m, dest[RaOf(db, m)]))
    && (forall g :: g in db.games && g != game ==> g in after.games && after.games[g] == db.games[g])
    && (forall id :: id in dest ==> SplitGame(db, after, game, id, dest[id]))
  }

  /** Nothing else has changed: no other game, no other launch profile, no progress; and the old game keeps the anchor's id. */
  ghost predicate SplitKeeps(db: Db, after: Db, game: nat, dest: map<nat, nat>)
    requires HasAnchor(db, game)
  {
    && AnchorId(db, game) in dest && dest[AnchorId(db, game)] == game
    && after.games.Keys == db.games.Keys + dest.Values && after.progress == db.progress
    && (forall p: Slot :: p.game !in dest.Values ==>
          (p in after.profiles <==> p in db.profiles) && (p in db.profiles ==> after.profiles[p] == db.profiles[p]))
  }

  /** Media of one id keep their order. */
  ghost predicate SplitOrders(db: Db, after: Db, game: nat) {
    forall m, n :: (Listed(db, m, game) && Listed(db, n, game) && RaOf(db, m) == RaOf(db, n)
                    && db.media[m].ordinal < db.media[n].ordinal) ==>
        && m in after.media && n in after.media && after.media[m].In? && after.media[n].In?
        && after.media[m].ordinal < after.media[n].ordinal
  }

  /** The old game keeps its anchor; a new one starts from the first bank of its first medium. */
  ghost predicate SplitAnchors(db: Db, after: Db, game: nat, dest: map<nat, nat>)
    requires HasAnchor(db, game)
  {
    forall id :: id in dest ==>
      && Slot(dest[id], 0) in after.profiles
      && var row := after.profiles[Slot(dest[id], 0)];
         if id == AnchorId(db, game) then row.media == AnchorOf(db, game).media && row.index == AnchorOf(db, game).index
         else FirstOfId(db, game, id, row.media) && forall k :: k in db.banks && k.media == row.media ==> row.index <= k.index
  }

  /** The medium comes before all others of the game with this id. */
  ghost predicate FirstOfId(db: Db, game: nat, id: nat, m: nat) {
    && Listed(db, m, game) && RaOf(db, m) == id
    && forall n :: Listed(db, n, game) && RaOf(db, n) == id ==> db.media[m].ordinal <= db.media[n].ordinal
  }

  /** The anchor's id of a game about to be split. */
  ghost function AnchorId(db: Db, game: nat): nat
    requires HasAnchor(db, game)
  {
    RaOf(db, AnchorOf(db, game).media)
  }

  // ---- the lists ----

  lemma WholeHasItsId(db: Db, m: nat)
    requires Whole(db, m)
    ensures RaOf(db, m) != 0 && RaIdsOfMedia(db, m) == {RaOf(db, m)}
  {
    var ids := RaIdsOfMedia(db, m);
    assert ids != {};
    var id := Lowest(ids);
    if ids != {id} {
      var other :| other in ids && other != id;
      assert {id, other} <= ids;
      SubsetIsSmaller({id, other}, ids);
    }
  }

  lemma SplitItemsAre(db: Db, game: nat)
    requires UniqueOrdinals(db)
    ensures Rising(db, SplitItems(db, game))
    ensures forall m :: m in SplitItems(db, game) <==> Listed(db, m, game)
  {
    hide BanksOf;
    var listed := set m | m in MediaOf(db, game) && BanksOf(db, m) != {};
    ByOrdinalRises(db, game, listed);
    forall m ensures m in SplitItems(db, game) <==> Listed(db, m, game) {
      if Listed(db, m, game) { ByOrdinalListsAll(db, listed, m); }
    }
  }

  lemma {:induction false} RisingAtLeast(db: Db, items: seq<nat>, k: nat)
    requires Rising(db, items) && k < |items|
    ensures db.media[items[k]].ordinal >= k
  {
    if k > 0 {
      RisingAtLeast(db, items, k - 1);
    }
  }

  // ---- the steps of the transaction ----

  lemma MadeBasics(db: Db, made: Db, game: nat, items: seq<nat>, anchorId: nat, dest: map<nat, nat>)
    requires Made(WithoutProfiles(db, game), made, items, map[anchorId := game], dest)
    ensures OneToOne(made, dest) && anchorId in dest && dest[anchorId] == game
    ensures made == WithoutProfiles(db, game).(games := made.games)
    ensures forall k :: 0 <= k < |items| ==> RaOf(WithoutProfiles(db, game), items[k]) in dest
  {
    hide RaOf, OneToOne, NewId;
    assert anchorId in map[anchorId := game];
  }

  lemma PlacingItem(db: Db, made: Db, game: nat, items: seq<nat>, anchorId: nat, dest: map<nat, nat>, k: nat)
    requires Constraints(db) && Rising(db, items) && k < |items|
    requires forall m :: m in items <==> Listed(db, m, game)
    requires Made(WithoutProfiles(db, game), made, items, map[anchorId := game], dest)
    ensures Listed(made, items[k], game) && NoProfilesOn(made, items[k]) && RaOf(made, items[k]) in dest
    ensures made.media[items[k]].ordinal >= k
  {
    hide RaOf, Constraints, Made, BanksOf;
    MadeBasics(db, made, game, items, anchorId, dest);
    RisingAtLeast(db, items, k);
    RaOfReads(WithoutProfiles(db, game), made, items[k]);
    RaOfReads(db, made, items[k]);
    WithoutProfilesKeeps(db, game);
    assert items[k] in items && NoProfilesOn(WithoutProfiles(db, game), items[k]);
  }

  lemma PlacingStarts(db: Db, made: Db, game: nat, items: seq<nat>, anchorId: nat, dest: map<nat, nat>)
    requires Constraints(db) && items == SplitItems(db, game)
    requires Made(WithoutProfiles(db, game), made, items, map[anchorId := game], dest)
    ensures Placing(made, game, items, dest, map[], anchorId) && Filled(made, items, dest, map[])
  {
    hide RaOf, Constraints, Made, SplitItems, Rising, OneToOne, BanksOf;
    ConstraintParts(db);
    SplitItemsAre(db, game);
    RisingDistinct(db, items);
    MadeBasics(db, made, game, items, anchorId, dest);
    BanksRead(db, made);
    forall k | 0 <= k < |items|
      ensures Listed(made, items[k], game) && NoProfilesOn(made, items[k]) && RaOf(made, items[k]) in dest
      ensures made.media[items[k]].ordinal >= k
    {
      PlacingItem(db, made, game, items, anchorId, dest, k);
    }
    forall ra, m | ra in dest && Owned(made, m, dest[ra])
      ensures ra == anchorId && (BanksOf(made, m) != {} ==> m in items)
    {
      NewGamesOwnNothing(db, made, game, items, anchorId, dest, ra, m);
    }
  }

  lemma NewDestinations(db: Db, made: Db, game: nat, items: seq<nat>, anchorId: nat, dest: map<nat, nat>)
    requires Made(WithoutProfiles(db, game), made, items, map[anchorId := game], dest)
    ensures forall a :: a in dest && a != anchorId ==> dest[a] !in db.games
  {
    hide RaOf;
    forall a | a in dest && a != anchorId
      ensures dest[a] !in db.games
    {
      assert NewId(WithoutProfiles(db, game), made, items, dest, a);
    }
  }

  lemma NewGamesOwnNothing(db: Db, made: Db, game: nat, items: seq<nat>, anchorId: nat, dest: map<nat, nat>,
    ra: nat, m: nat)
    requires OwnersExist(db) && forall n :: n in items <==> Listed(db, n, game)
    requires Made(WithoutProfiles(db, game), made, items, map[anchorId := game], dest)
    requires ra in dest && Owned(made, m, dest[ra])
    ensures ra == anchorId && (BanksOf(db, m) != {} ==> m in items)
  {
    hide RaOf, BanksOf;
    NewDestinations(db, made, game, items, anchorId, dest);
    assert made.media == db.media && dest[ra] in db.games;
    MadeBasics(db, made, game, items, anchorId, dest);
    assert BanksOf(db, m) != {} ==> Listed(db, m, game);
  }

  /** The one condition on ids covers the new games and the old one. */
  lemma IdsFreeExactly(db: Db, game: nat, items: seq<nat>, anchorId: nat)
    requires forall m :: m in items <==> Listed(db, m, game)
    requires exists k :: 0 <= k < |items| && RaOf(db, items[k]) == anchorId
    ensures IdsFree(db, game, anchorId) <==>
      && NewIdsFree(WithoutProfiles(db, game), items, map[anchorId := game])
      && (forall h :: h in db.games && h != game ==> db.games[h].ra != anchorId)
  {
    hide RaOf;
    var bare := WithoutProfiles(db, game);
    forall m ensures RaOf(bare, m) == RaOf(db, m) {
      RaOfReads(db, bare, m);
    }
    if && NewIdsFree(bare, items, map[anchorId := game])
       && (forall h :: h in db.games && h != game ==> db.games[h].ra != anchorId) {
      forall m, h | Listed(db, m, game) && h in db.games && db.games[h].ra == RaOf(db, m)
        ensures h == game && RaOf(db, m) == anchorId
      {
        assert m in items;
        var k :| 0 <= k < |items| && items[k] == m;
        assert h in bare.games;
      }
    }
    if IdsFree(db, game, anchorId) {
      forall k, h | 0 <= k < |items| && RaOf(bare, items[k]) !in map[anchorId := game] && h in bare.games
        ensures bare.games[h].ra != RaOf(bare, items[k])
      {
        assert items[k] in items && Listed(db, items[k], game);
      }
      var k :| 0 <= k < |items| && RaOf(db, items[k]) == anchorId;
      assert items[k] in items && Listed(db, items[k], game);
    }
  }

  /** After the second loop the game itself may take the anchor's id, if nobody else in the library had it. */
  lemma NamingExactly(db: Db, made: Db, placed: Db, game: nat, items: seq<nat>, anchorId: nat, dest: map<nat, nat>)
    requires Constraints(placed) && anchorId != 0 && game in db.games
    requires Made(WithoutProfiles(db, game), made, items, map[anchorId := game], dest) && placed.games == made.games
    ensures Identify(placed, game, anchorId).Just? <==>
      forall h :: h in db.games && h != game ==> db.games[h].ra != anchorId
  {
    hide RaOf, Constraints, OneToOne;
    assert game in WithoutProfiles(db, game).games && game in made.games;
    IdentifyKeepsExactly(placed, game, anchorId);
    forall h | h in placed.games && h !in db.games
      ensures placed.games[h].ra != anchorId
    {
      var a :| a in dest && a !in map[anchorId := game] && dest[a] == h;
      assert NewId(WithoutProfiles(db, game), made, items, dest, a);
    }
    forall h | h in db.games
      ensures h in placed.games && placed.games[h] == db.games[h]
    {
      assert h in WithoutProfiles(db, game).games;
    }
  }

  /** What the destinations look like once the old game has its id. */
  lemma Named(db: Db, made: Db, named: Db, game: nat, items: seq<nat>, anchorId: nat, dest: map<nat, nat>, id: nat)
    requires Made(WithoutProfiles(db, game), made, items, map[anchorId := game], dest) && id in dest
    requires named.games == made.games[game := Game(anchorId, IDENTIFIED)]
    ensures dest[id] in named.games && named.games[dest[id]] == Game(id, IDENTIFIED)
  {
    hide RaOf;
    assert anchorId in map[anchorId := game] && dest[anchorId] == game;
    if id != anchorId {
      assert NewId(WithoutProfiles(db, game), made, items, dest, id);
    }
  }

  // ---- the anchors fit ----

  lemma FirstBankExists(db: Db, m: nat)
    requires BanksOf(db, m) != {}
    ensures BankKey(m, FirstBank(db, m)) in db.banks
  {
    var k :| k in BanksOf(db, m);
    assert k.index in BankIndexes(db, m);
    var i := FirstBank(db, m);
    var first :| first in BanksOf(db, m) && first.index == i;
    assert first == BankKey(m, i);
  }

  /** The anchor row of each destination names a medium of that destination and a bank of that medium. */
  lemma AnchorRowFits(db: Db, named: Db, game: nat, items: seq<nat>, anchorId: nat, anchor: Profile,
    dest: map<nat, nat>, id: nat)
    requires named.banks == db.banks && id in dest && anchorId in dest
    requires forall m :: m in items <==> Listed(db, m, game)
    requires forall m :: m in items ==> RaOf(db, m) in dest && Owned(named, m, dest[RaOf(db, m)])
    requires id != anchorId ==> exists k :: 0 <= k < |items| && RaOf(db, items[k]) == id
    requires anchor.media in items && RaOf(db, anchor.media) == anchorId
    requires BankKey(anchor.media, anchor.index) in db.banks
    ensures FitsAnchor(named, dest[id], AnchorRow(named, items, id, anchorId, anchor))
  {
    hide RaOf, FirstBank, StartOf, BanksOf;
    AnchorRowReads(db, named, items, id, anchorId, anchor);
    if id != anchorId {
      StartIsListed(db, items, id);
      FirstBankExists(db, StartOf(db, items, id));
    }
  }

  lemma NoSlotsYet(db: Db, named: Db, made: Db, game: nat, items: seq<nat>, anchorId: nat, dest: map<nat, nat>, id: nat)
    requires ProfilesRefer(db) && id in dest && named.profiles == WithoutProfiles(db, game).profiles
    requires Made(WithoutProfiles(db, game), made, items, map[anchorId := game], dest)
    ensures SlotsOf(named, dest[id]) == {}
  {
    hide RaOf, OneToOne;
    NewDestinations(db, made, game, items, anchorId, dest);
    assert anchorId in map[anchorId := game] && dest[anchorId] == game;
    forall p | p in named.profiles
      ensures p.game != dest[id]
    {
      assert p in db.profiles && p.game in db.games && p !in SlotsOf(db, game);
    }
  }

  // ---- the result ----

  /** The database before the anchors are written, and how it came to be. */
  ghost predicate Prepared(db: Db, made: Db, placed: Db, named: Db, game: nat, items: seq<nat>, anchorId: nat,
    dest: map<nat, nat>)
  {
    && Made(WithoutProfiles(db, game), made, items, map[anchorId := game], dest)
    && Distributed(made, placed, items, dest)
    && (forall ra :: ra in dest ==> exists n :: Contiguous(placed, dest[ra], n))
    && named == WithGame(placed, game, anchorId, IDENTIFIED)
  }

  lemma PreparedPlaces(db: Db, made: Db, placed: Db, named: Db, game: nat, items: seq<nat>, anchorId: nat,
    dest: map<nat, nat>)
    requires Prepared(db, made, placed, named, game, items, anchorId, dest)
    requires forall m :: m in items <==> Listed(db, m, game)
    ensures named.banks == db.banks && named.profiles == WithoutProfiles(db, game).profiles
    ensures named.media.Keys == db.media.Keys
    ensures forall m :: m in items ==> RaOf(db, m) in dest && Owned(named, m, dest[RaOf(db, m)])
    ensures forall m :: m in db.media && m !in items ==> named.media[m] == db.media[m]
  {
    hide RaOf, Contiguous;
    MadeBasics(db, made, game, items, anchorId, dest);
    forall m | m in items
      ensures RaOf(db, m) in dest && Owned(named, m, dest[RaOf(db, m)])
    {
      var k :| 0 <= k < |items| && items[k] == m;
      RaOfReads(db, made, m);
      assert Owned(placed, items[k], dest[RaOf(made, items[k])]);
    }
  }

  /** A destination owns exactly the old game's media of its id. */
  lemma PartOwns(db: Db, made: Db, placed: Db, named: Db, game: nat, items: seq<nat>, anchorId: nat,
    dest: map<nat, nat>, id: nat, m: nat)
    requires Prepared(db, made, placed, named, game, items, anchorId, dest) && id in dest && OwnersExist(db)
    requires forall n :: n in items <==> Listed(db, n, game)
    requires AllWhole(db, game)
    ensures Owned(named, m, dest[id]) <==>
      (Owned(db, m, game) && RaIdsOfMedia(db, m) == {id}) || (dest[id] == game && Stays(db, m, game))
  {
    hide RaOf, Contiguous, Whole, RaIdsOfMedia, BanksOf;
    PreparedPlaces(db, made, placed, named, game, items, anchorId, dest);
    MadeBasics(db, made, game, items, anchorId, dest);
    NewDestinations(db, made, game, items, anchorId, dest);
    if m in items {
      assert Listed(db, m, game) && Whole(db, m);
      WholeHasItsId(db, m);
      assert Owned(named, m, dest[RaOf(db, m)]);
    } else {
      NoBanksNoIds(db, m);
    }
  }

  lemma NoBanksNoIds(db: Db, m: nat)
    ensures BanksOf(db, m) == {} ==> RaIdsOfMedia(db, m) == {}
  {
  }

  lemma SameMediaContiguous(placed: Db, after: Db, part: nat)
    requires after.media == placed.media && after.banks == placed.banks && exists n :: Contiguous(placed, part, n)
    ensures exists n :: Contiguous(after, part, n)
  {
    BanksRead(placed, after);
    hide BanksOf;
    var n :| Contiguous(placed, part, n);
    forall o: nat | o < n ensures Taken(after, [], part, o) {
      assert Taken(placed, [], part, o);
    }
    forall m | Listed(after, m, part) ensures after.media[m].ordinal < n {
      assert Listed(placed, m, part);
    }
    assert Contiguous(after, part, n);
  }

  lemma OneSlotEach(named: Db, after: Db, ids: seq<nat>, dest: map<nat, nat>, items: seq<nat>, anchorId: nat,
    anchor: Profile, id: nat)
    requires forall k :: 0 <= k < |ids| ==> ids[k] in dest
    requires Anchored(named, after, ids, dest, items, anchorId, anchor) && id in ids
    requires SlotsOf(named, dest[id]) == {} && OneToOne(named, dest)
    ensures SlotsOf(after, dest[id]) == {Slot(dest[id], 0)} && Slot(dest[id], 0) in after.profiles
    ensures after.profiles[Slot(dest[id], 0)] == AnchorRow(named, items, id, anchorId, anchor)
  {
    hide AnchorRow;
    var k :| 0 <= k < |ids| && ids[k] == id;
    assert Slot(dest[ids[k]], 0) in after.profiles;
    forall p | p in after.profiles && p.game == dest[id]
      ensures p == Slot(dest[id], 0)
    {
      assert p !in SlotsOf(named, dest[id]);
      var j :| 0 <= j < |ids| && p == Slot(dest[ids[j]], 0);
    }
    assert Slot(dest[id], 0) in SlotsOf(after, dest[id]);
  }

  lemma PreparedGames(db: Db, made: Db, placed: Db, named: Db, game: nat, items: seq<nat>, anchorId: nat,
    dest: map<nat, nat>)
    requires Prepared(db, made, placed, named, game, items, anchorId, dest)
    ensures named.games == made.games[game := Game(anchorId, IDENTIFIED)] && named.media == placed.media
    ensures named.banks == placed.banks
    ensures named.profiles == WithoutProfiles(db, game).profiles
  {
    hide RaOf, Contiguous, OneToOne, NewId;
  }

  lemma PartIsSplit(db: Db, made: Db, placed: Db, named: Db, after: Db, game: nat, items: seq<nat>, anchorId: nat,
    anchor: Profile, dest: map<nat, nat>, ids: seq<nat>, id: nat)
    requires Prepared(db, made, placed, named, game, items, anchorId, dest) && id in dest
    requires OwnersExist(db) && ProfilesRefer(db) && AllWhole(db, game)
    requires forall n :: n in items <==> Listed(db, n, game)
    requires (forall k :: 0 <= k < |ids| ==> ids[k] in dest) && id in ids
    requires Anchored(named, after, ids, dest, items, anchorId, anchor)
    requires FitsAnchor(named, dest[id], AnchorRow(named, items, id, anchorId, anchor))
    ensures SplitGame(db, after, game, id, dest[id])
  {
    hide RaOf, Whole, AllWhole, RaIdsOfMedia, AnchorRow, Contiguous, SlotsOf, Made, Distributed, OneToOne,
      OwnersExist, ProfilesRefer, FitsAnchor, SplitGame, Anchored;
    AnchoredFrame(named, after, ids, dest, items, anchorId, anchor);
    PreparedGames(db, made, placed, named, game, items, anchorId, dest);
    Named(db, made, named, game, items, anchorId, dest, id);
    NoSlotsYet(db, named, made, game, items, anchorId, dest, id);
    NamedOneToOne(db, made, named, game, items, anchorId, dest);
    OneSlotEach(named, after, ids, dest, items, anchorId, anchor, id);
    PartMedia(db, made, placed, named, after, game, items, anchorId, dest, id);
    FitReads(named, after, dest[id], AnchorRow(named, items, id, anchorId, anchor));
    SplitGameFrom(db, after, game, id, dest[id]);
  }

  lemma AnchoredFrame(named: Db, after: Db, ids: seq<nat>, dest: map<nat, nat>, items: seq<nat>,
    anchorId: nat, anchor: Profile)
    requires forall k :: 0 <= k < |ids| ==> ids[k] in dest
    requires Anchored(named, after, ids, dest, items, anchorId, anchor)
    ensures after == named.(profiles := after.profiles)
  {
    hide AnchorRow;
  }

  lemma FitReads(named: Db, after: Db, part: nat, row: Profile)
    requires FitsAnchor(named, part, row) && after.media == named.media && after.banks == named.banks
    ensures FitsAnchor(after, part, row)
  {
  }

  lemma SplitGameFrom(db: Db, after: Db, game: nat, id: nat, part: nat)
    requires part in after.games && after.games[part] == Game(id, IDENTIFIED)
    requires forall m :: Owned(after, m, part) <==>
      (Owned(db, m, game) && RaIdsOfMedia(db, m) == {id}) || (part == game && Stays(db, m, game))
    requires exists n :: Contiguous(after, part, n)
    requires SlotsOf(after, part) == {Slot(part, 0)}
    requires Slot(part, 0) in after.profiles && FitsAnchor(after, part, after.profiles[Slot(part, 0)])
    ensures SplitGame(db, after, game, id, part)
  {
    hide RaIdsOfMedia, Contiguous, SlotsOf, FitsAnchor, Owned, Stays;
  }

  lemma PartMedia(db: Db, made: Db, placed: Db, named: Db, after: Db, game: nat, items: seq<nat>, anchorId: nat,
    dest: map<nat, nat>, id: nat)
    requires Prepared(db, made, placed, named, game, items, anchorId, dest) && id in dest
    requires OwnersExist(db) && AllWhole(db, game) && after.media == named.media && after.banks == named.banks
    requires forall n :: n in items <==> Listed(db, n, game)
    ensures forall m :: Owned(after, m, dest[id]) <==>
      (Owned(db, m, game) && RaIdsOfMedia(db, m) == {id}) || (dest[id] == game && Stays(db, m, game))
    ensures exists n :: Contiguous(after, dest[id], n)
  {
    hide RaOf, Whole, AllWhole, RaIdsOfMedia, Contiguous, Made, Distributed, Stays, BanksOf;
    PreparedGames(db, made, placed, named, game, items, anchorId, dest);
    forall m ensures Owned(after, m, dest[id]) <==>
      (Owned(db, m, game) && RaIdsOfMedia(db, m) == {id}) || (dest[id] == game && Stays(db, m, game))
    {
      PartOwns(db, made, placed, named, game, items, anchorId, dest, id, m);
    }
    SameMediaContiguous(placed, after, dest[id]);
  }

  lemma NamedOneToOne(db: Db, made: Db, named: Db, game: nat, items: seq<nat>, anchorId: nat, dest: map<nat, nat>)
    requires Made(WithoutProfiles(db, game), made, items, map[anchorId := game], dest)
    requires named.games == made.games[game := Game(anchorId, IDENTIFIED)]
    ensures OneToOne(named, dest)
  {
    hide RaOf, NewId;
  }

  /** The rows are ready for the anchors. */
  lemma AnchorsFit(db: Db, made: Db, placed: Db, named: Db, game: nat, items: seq<nat>, anchorId: nat,
    anchor: Profile, dest: map<nat, nat>)
    requires Prepared(db, made, placed, named, game, items, anchorId, dest)
    requires Constraints(db) && forall n :: n in items <==> Listed(db, n, game)
    requires anchor.media in items && RaOf(db, anchor.media) == anchorId
    requires BankKey(anchor.media, anchor.index) in db.banks
    ensures Anchorable(named, Ascending(dest.Keys), dest, items, anchorId, anchor)
  {
    hide RaOf, AnchorRow, Contiguous, SlotsOf, Made, Distributed, FitsAnchor, OneToOne;
    ProfileConstraints(db);
    PreparedPlaces(db, made, placed, named, game, items, anchorId, dest);
    PreparedGames(db, made, placed, named, game, items, anchorId, dest);
    MadeBasics(db, made, game, items, anchorId, dest);
    NamedOneToOne(db, made, named, game, items, anchorId, dest);
    var ids := Ascending(dest.Keys);
    forall k | 0 <= k < |ids|
      ensures ids[k] in dest && SlotsOf(named, dest[ids[k]]) == {}
      ensures FitsAnchor(named, dest[ids[k]], AnchorRow(named, items, ids[k], anchorId, anchor))
    {
      NoSlotsYet(db, named, made, game, items, anchorId, dest, ids[k]);
      DestinationIsListed(db, made, game, items, anchorId, dest, ids[k]);
      AnchorRowFits(db, named, game, items, anchorId, anchor, dest, ids[k]);
    }
  }

  lemma ProfileConstraints(db: Db)
    requires Constraints(db)
    ensures ProfilesRefer(db) && OwnersExist(db) && UniqueOrdinals(db)
  {
  }

  lemma DestinationIsListed(db: Db, made: Db, game: nat, items: seq<nat>, anchorId: nat, dest: map<nat, nat>, id: nat)
    requires Made(WithoutProfiles(db, game), made, items, map[anchorId := game], dest) && id in dest
    ensures id != anchorId ==> exists k :: 0 <= k < |items| && RaOf(db, items[k]) == id
  {
    hide RaOf, OneToOne;
    if id != anchorId {
      assert NewId(WithoutProfiles(db, game), made, items, dest, id);
      var k :| 0 <= k < |items| && RaOf(WithoutProfiles(db, game), items[k]) == id;
      RaOfReads(db, WithoutProfiles(db, game), items[k]);
    }
  }

  /** The anchor of a game is one of its media. */
  lemma AnchorIsListed(db: Db, game: nat)
    requires Constraints(db) && HasAnchor(db, game)
    ensures Owned(db, AnchorOf(db, game).media, game)
    ensures BankKey(AnchorOf(db, game).media, AnchorOf(db, game).index) in db.banks
  {
    ProfileConstraints(db);
  }

  // ---- SPLIT as a whole ----

  /** Once every id is free and no medium is in the way, nothing in the transaction can fail. */
  lemma SplitCommits(db: Db, game: nat)
    requires Constraints(db) && game in db.games && AllWhole(db, game)
    requires HasAnchor(db, game) && IdsFree(db, game, AnchorId(db, game)) && OutOfTheWay(db, game, AnchorId(db, game))
    ensures Split(db, game).Just? && Constraints(Split(db, game).value)
    ensures exists dest :: SplitDone(db, Split(db, game).value, game, dest)
  {
    hide SplitDone, SplitKeeps, SplitOrders, SplitAnchors, Constraints, AllWhole, IdsFree, RaOf, Whole, MakeGames, Distribute, InsertAnchors, SplitItems,
      NewIdsFree, Made, Distributed, Placing, Filled, Contiguous, Anchorable, Anchored, SplitInto, AnchorOf, Ascending,
      WithoutProfiles, Owned, Identify, OutOfTheWay;
    var items, anchor := SplitItems(db, game), AnchorOf(db, game);
    var anchorId := AnchorId(db, game);
    ItemsAndAnchor(db, game);
    var made, dest := FirstLoop(db, game, items, anchorId);
    SecondLoopExactly(db, made, game, items, anchorId, dest);
    var placed := Distribute(made, game, items, dest, map[]).value;
    var named := WithGame(placed, game, anchorId, IDENTIFIED);
    NamingSucceeds(db, made, placed, game, items, anchorId, dest);
    AnchorsFit(db, made, placed, named, game, items, anchorId, anchor, dest);
    AnchorableFits(named, Ascending(dest.Keys), dest, items, anchorId, anchor);
    InsertAnchorsSucceeds(named, Ascending(dest.Keys), dest, items, anchorId, anchor);
    Assembled(db, made, placed, named, InsertAnchors(named, Ascending(dest.Keys), dest, items, anchorId, anchor).value,
      game, items, anchorId, anchor, dest, Ascending(dest.Keys));
    Kept(db, made, placed, named, InsertAnchors(named, Ascending(dest.Keys), dest, items, anchorId, anchor).value,
      game, items, dest, Ascending(dest.Keys));
    DoneIs(db, Split(db, game).value, game, dest);
  }

  /** Everything that a committed SPLIT comes to. */
  ghost predicate SplitDone(db: Db, after: Db, game: nat, dest: map<nat, nat>)
    requires HasAnchor(db, game)
  {
    && SplitInto(db, after, game, dest) && RaIdsOf(db, game) == dest.Keys
    && SplitKeeps(db, after, game, dest) && SplitOrders(db, after, game) && SplitAnchors(db, after, game, dest)
  }

  lemma DoneIs(db: Db, after: Db, game: nat, dest: map<nat, nat>)
    requires HasAnchor(db, game) && SplitInto(db, after, game, dest) && RaIdsOf(db, game) == dest.Keys
    requires SplitKeeps(db, after, game, dest) && SplitOrders(db, after, game) && SplitAnchors(db, after, game, dest)
    ensures SplitDone(db, after, game, dest)
  {
    hide SplitInto, RaIdsOf, SplitKeeps, SplitOrders, SplitAnchors, HasAnchor;
  }

  lemma Kept(db: Db, made: Db, placed: Db, named: Db, after: Db, game: nat, items: seq<nat>, dest: map<nat, nat>,
    ids: seq<nat>)
    requires Constraints(db) && HasAnchor(db, game) && items == SplitItems(db, game)
    requires var anchorId := AnchorId(db, game);
      && Prepared(db, made, placed, named, game, items, anchorId, dest)
      && Distribute(made, game, items, dest, map[]) == Just(placed)
    requires (forall k :: 0 <= k < |ids| ==> ids[k] in dest) && forall id :: id in dest ==> id in ids
    requires Anchored(named, after, ids, dest, items, AnchorId(db, game), AnchorOf(db, game))
    ensures SplitKeeps(db, after, game, dest) && SplitOrders(db, after, game) && SplitAnchors(db, after, game, dest)
  {
    hide Constraints, Prepared, Anchored, Distribute, SplitKeeps, SplitOrders, SplitAnchors, SplitItems, AnchorOf, RaOf;
    var anchorId := AnchorId(db, game);
    ProfileConstraints(db);
    SplitItemsAre(db, game);
    KeptRows(db, made, placed, named, after, game, items, dest, ids);
    KeptFrame(db, made, placed, named, after, game, items, dest, ids);
    KeptOrder(db, made, placed, after, game, items, dest);
    forall id | id in dest
      ensures Slot(dest[id], 0) in after.profiles
      ensures after.profiles[Slot(dest[id], 0)] == AnchorRow(db, items, id, anchorId, AnchorOf(db, game))
      ensures id != anchorId ==> exists k :: 0 <= k < |items| && RaOf(db, items[k]) == id
    {
      KeptRow(db, made, placed, named, after, game, items, dest, ids, id);
    }
    KeptAnchors(db, made, after, game, items, dest);
  }

  lemma KeptFrame(db: Db, made: Db, placed: Db, named: Db, after: Db, game: nat, items: seq<nat>, dest: map<nat, nat>,
    ids: seq<nat>)
    requires HasAnchor(db, game) && Prepared(db, made, placed, named, game, items, AnchorId(db, game), dest)
    requires forall k :: 0 <= k < |ids| ==> ids[k] in dest
    requires Anchored(named, after, ids, dest, items, AnchorId(db, game), AnchorOf(db, game))
    ensures made.media == db.media && made.banks == db.banks && after.media == placed.media && after.banks == db.banks
  {
    hide RaOf, Contiguous, NewId, OneToOne, AnchorRow, AnchorOf;
    MadeBasics(db, made, game, items, AnchorId(db, game), dest);
  }

  lemma KeptRows(db: Db, made: Db, placed: Db, named: Db, after: Db, game: nat, items: seq<nat>, dest: map<nat, nat>,
    ids: seq<nat>)
    requires HasAnchor(db, game) && Prepared(db, made, placed, named, game, items, AnchorId(db, game), dest)
    requires (forall k :: 0 <= k < |ids| ==> ids[k] in dest) && game in db.games
    requires Anchored(named, after, ids, dest, items, AnchorId(db, game), AnchorOf(db, game))
    ensures SplitKeeps(db, after, game, dest)
  {
    hide RaOf, Contiguous, AnchorRow, AnchorOf, NewId;
    var anchorId := AnchorId(db, game);
    MadeBasics(db, made, game, items, anchorId, dest);
    GamesMade(db, made, game, items, anchorId, dest);
    assert named.games.Keys == made.games.Keys;
    forall p: Slot | p.game !in dest.Values
      ensures (p in after.profiles <==> p in db.profiles) && (p in db.profiles ==> after.profiles[p] == db.profiles[p])
    {
      assert p.game != game by { assert dest[anchorId] in dest.Values; }
    }
  }

  lemma GamesMade(db: Db, made: Db, game: nat, items: seq<nat>, anchorId: nat, dest: map<nat, nat>)
    requires Made(WithoutProfiles(db, game), made, items, map[anchorId := game], dest) && game in db.games
    ensures made.games.Keys == db.games.Keys + dest.Values
  {
    hide RaOf, NewId;
    MadeBasics(db, made, game, items, anchorId, dest);
    forall g ensures g in made.games <==> g in db.games || g in dest.Values {
      if g in db.games { assert g in WithoutProfiles(db, game).games; }
      if g in made.games && g !in db.games {
        var a :| a in dest && a !in map[anchorId := game] && dest[a] == g;
      }
    }
  }

  lemma KeptOrder(db: Db, made: Db, placed: Db, after: Db, game: nat, items: seq<nat>, dest: map<nat, nat>)
    requires Distribute(made, game, items, dest, map[]) == Just(placed) && Rising(db, items)
    requires made.media == db.media && made.banks == db.banks && after.media == placed.media
    requires forall m :: m in items <==> Listed(db, m, game)
    ensures SplitOrders(db, after, game)
  {
    hide RaOf, Distribute, BanksOf;
    RisingDistinct(db, items);
    DistributeKeepsOrder(made, game, items, dest, map[]);
    forall k | 0 <= k < |items| ensures RaOf(made, items[k]) == RaOf(db, items[k]) {
      RaOfReads(db, made, items[k]);
    }
    OrderedPairs(db, after, game, items);
  }

  lemma OrderedPairs(db: Db, after: Db, game: nat, items: seq<nat>)
    requires Rising(db, items) && forall m :: m in items <==> Listed(db, m, game)
    requires forall k :: 0 <= k < |items| ==> items[k] in after.media && after.media[items[k]].In?
    requires forall i, j :: 0 <= i < j < |items| && RaOf(db, items[i]) == RaOf(db, items[j]) ==>
      after.media[items[i]].ordinal < after.media[items[j]].ordinal
    ensures SplitOrders(db, after, game)
  {
    hide RaOf, BanksOf;
    forall m, n | Listed(db, m, game) && Listed(db, n, game) && RaOf(db, m) == RaOf(db, n)
      && db.media[m].ordinal < db.media[n].ordinal
      ensures m in after.media && n in after.media && after.media[m].In? && after.media[n].In?
      ensures after.media[m].ordinal < after.media[n].ordinal
    {
      var i :| 0 <= i < |items| && items[i] == m;
      var j :| 0 <= j < |items| && items[j] == n;
      assert i < j;
    }
  }

  lemma KeptRow(db: Db, made: Db, placed: Db, named: Db, after: Db, game: nat, items: seq<nat>, dest: map<nat, nat>,
    ids: seq<nat>, id: nat)
    requires ProfilesRefer(db) && OwnersExist(db) && HasAnchor(db, game) && id in dest && id in ids
    requires Prepared(db, made, placed, named, game, items, AnchorId(db, game), dest)
    requires forall k :: 0 <= k < |ids| ==> ids[k] in dest
    requires Anchored(named, after, ids, dest, items, AnchorId(db, game), AnchorOf(db, game))
    requires made.banks == db.banks
    ensures Slot(dest[id], 0) in after.profiles
    ensures after.profiles[Slot(dest[id], 0)] == AnchorRow(db, items, id, AnchorId(db, game), AnchorOf(db, game))
    ensures id != AnchorId(db, game) ==> exists k :: 0 <= k < |items| && RaOf(db, items[k]) == id
  {
    hide RaOf, Anchored, AnchorRow, AnchorOf, Contiguous, Made, SlotsOf, OneToOne, ProfilesRefer, OwnersExist;
    var anchorId, anchor := AnchorId(db, game), AnchorOf(db, game);
    PreparedGames(db, made, placed, named, game, items, anchorId, dest);
    NoSlotsYet(db, named, made, game, items, anchorId, dest, id);
    NamedOneToOne(db, made, named, game, items, anchorId, dest);
    OneSlotEach(named, after, ids, dest, items, anchorId, anchor, id);
    AnchorRowReads(db, named, items, id, anchorId, anchor);
    DestinationIsListed(db, made, game, items, anchorId, dest, id);
  }

  lemma KeptAnchors(db: Db, made: Db, after: Db, game: nat, items: seq<nat>, dest: map<nat, nat>)
    requires HasAnchor(db, game) && Rising(db, items) && forall m :: m in items <==> Listed(db, m, game)
    requires forall id :: id in dest ==>
      && Slot(dest[id], 0) in after.profiles
      && after.profiles[Slot(dest[id], 0)] == AnchorRow(db, items, id, AnchorId(db, game), AnchorOf(db, game))
    requires forall id :: id in dest && id != AnchorId(db, game) ==> exists k :: 0 <= k < |items| && RaOf(db, items[k]) == id
    ensures SplitAnchors(db, after, game, dest)
  {
    hide RaOf, StartOf, FirstBank, AnchorOf, BanksOf;
    forall id | id in dest && id != AnchorId(db, game)
      ensures FirstOfId(db, game, id, StartOf(db, items, id))
      ensures forall k :: k in db.banks && k.media == StartOf(db, items, id) ==> FirstBank(db, StartOf(db, items, id)) <= k.index
    {
      StartIsListed(db, items, id);
      StartComesFirst(db, game, items, id);
      FirstBankIsLowest(db, StartOf(db, items, id));
    }
  }

  lemma StartComesFirst(db: Db, game: nat, items: seq<nat>, id: nat)
    requires Rising(db, items) && forall m :: m in items <==> Listed(db, m, game)
    requires StartOf(db, items, id) in items && RaOf(db, StartOf(db, items, id)) == id
    ensures FirstOfId(db, game, id, StartOf(db, items, id))
  {
    hide RaOf, StartOf, BanksOf;
    forall n | Listed(db, n, game) && RaOf(db, n) == id
      ensures db.media[StartOf(db, items, id)].ordinal <= db.media[n].ordinal
    {
      var k :| 0 <= k < |items| && items[k] == n;
      StartIsFirst(db, items, id, k);
      var i :| 0 <= i <= k && items[i] == StartOf(db, items, id) && RaOf(db, items[i]) == id;
    }
  }

  lemma FirstBankIsLowest(db: Db, m: nat)
    ensures forall k :: k in db.banks && k.media == m ==> FirstBank(db, m) <= k.index
  {
    forall k | k in db.banks && k.media == m
      ensures FirstBank(db, m) <= k.index
    {
      assert k in BanksOf(db, m);
      assert k.index in BankIndexes(db, m);
    }
  }

  lemma AnchorableFits(named: Db, ids: seq<nat>, dest: map<nat, nat>, items: seq<nat>, anchorId: nat, anchor: Profile)
    requires Anchorable(named, ids, dest, items, anchorId, anchor)
    ensures forall k :: 0 <= k < |ids| ==>
      ids[k] in dest && FitsAnchor(named, dest[ids[k]], AnchorRow(named, items, ids[k], anchorId, anchor))
  {
    hide FitsAnchor, AnchorRow, OneToOne;
  }

  lemma ItemsAndAnchor(db: Db, game: nat)
    requires Constraints(db) && AllWhole(db, game) && HasAnchor(db, game)
    ensures forall m :: m in SplitItems(db, game) <==> Listed(db, m, game)
    ensures AnchorOf(db, game).media in SplitItems(db, game) && AnchorId(db, game) != 0
    ensures BankKey(AnchorOf(db, game).media, AnchorOf(db, game).index) in db.banks
    ensures forall m :: m in SplitItems(db, game) ==> RaOf(db, m) != 0
    ensures exists k :: 0 <= k < |SplitItems(db, game)| && RaOf(db, SplitItems(db, game)[k]) == AnchorId(db, game)
  {
    hide Constraints, RaOf, Whole, SplitItems, AnchorOf;
    ProfileConstraints(db);
    SplitItemsAre(db, game);
    AnchorIsListed(db, game);
    var items, anchor := SplitItems(db, game), AnchorOf(db, game);
    assert BankKey(anchor.media, anchor.index) in BanksOf(db, anchor.media);
    assert Listed(db, anchor.media, game);
    forall m | m in items ensures RaOf(db, m) != 0 {
      assert Whole(db, m);
      WholeHasItsId(db, m);
    }
    var k :| 0 <= k < |items| && items[k] == anchor.media;
    assert RaOf(db, items[k]) == AnchorId(db, game);
  }

  lemma FirstLoop(db: Db, game: nat, items: seq<nat>, anchorId: nat) returns (made: Db, dest: map<nat, nat>)
    requires Constraints(db) && game in db.games && IdsFree(db, game, anchorId)
    requires forall m :: m in items <==> Listed(db, m, game)
    requires forall m :: m in items ==> RaOf(db, m) != 0
    requires exists k :: 0 <= k < |items| && RaOf(db, items[k]) == anchorId
    ensures MakeGames(WithoutProfiles(db, game), items, map[anchorId := game]) == Just((made, dest))
    ensures Constraints(made) && Made(WithoutProfiles(db, game), made, items, map[anchorId := game], dest)
  {
    hide Constraints, IdsFree, RaOf, NewIdsFree, Made, MakeGames;
    var bare := WithoutProfiles(db, game);
    IdsFreeExactly(db, game, items, anchorId);
    WithoutProfilesKeeps(db, game);
    forall k | 0 <= k < |items| ensures RaOf(bare, items[k]) != 0 {
      RaOfReads(db, bare, items[k]);
      assert items[k] in items;
    }
    MakeGamesExactly(bare, items, map[anchorId := game]);
    var result := MakeGames(bare, items, map[anchorId := game]).value;
    made, dest := result.0, result.1;
  }

  /** The second loop, seen from the database before the transaction. */
  lemma SecondLoopExactly(db: Db, made: Db, game: nat, items: seq<nat>, anchorId: nat, dest: map<nat, nat>)
    requires Constraints(db) && Constraints(made) && items == SplitItems(db, game)
    requires Made(WithoutProfiles(db, game), made, items, map[anchorId := game], dest)
    ensures Distribute(made, game, items, dest, map[]).Just? <==> OutOfTheWay(db, game, anchorId)
    ensures Distribute(made, game, items, dest, map[]).Just? ==>
      var placed := Distribute(made, game, items, dest, map[]).value;
      && Constraints(placed) && Distributed(made, placed, items, dest)
      && forall ra :: ra in dest ==> exists n :: Contiguous(placed, dest[ra], n)
  {
    hide Constraints, Made, Distributed, Contiguous, Distribute, Placing, Filled, SplitItems, ClearBelow;
    PlacingStarts(db, made, game, items, anchorId, dest);
    DistributeExactly(made, game, items, dest, map[], anchorId);
    MadeFrame(db, made, game, items, anchorId, dest);
    CountReads(db, made, items, anchorId);
    SameClear(db, made, game, Count(db, items, anchorId));
  }

  lemma MadeFrame(db: Db, made: Db, game: nat, items: seq<nat>, anchorId: nat, dest: map<nat, nat>)
    requires Made(WithoutProfiles(db, game), made, items, map[anchorId := game], dest)
    ensures made.media == db.media && made.banks == db.banks
  {
    hide RaOf, OneToOne, NewId;
  }

  lemma SameClear(db: Db, made: Db, game: nat, n: nat)
    requires made.media == db.media && made.banks == db.banks
    ensures ClearBelow(made, game, n) <==> ClearBelow(db, game, n)
  {
    BanksRead(db, made);
    hide BanksOf;
    assert forall m :: Owned(made, m, game) <==> Owned(db, m, game);
  }

  lemma NamingSucceeds(db: Db, made: Db, placed: Db, game: nat, items: seq<nat>, anchorId: nat, dest: map<nat, nat>)
    requires Constraints(placed) && anchorId != 0 && game in db.games && IdsFree(db, game, anchorId)
    requires forall m :: m in items <==> Listed(db, m, game)
    requires exists k :: 0 <= k < |items| && RaOf(db, items[k]) == anchorId
    requires Made(WithoutProfiles(db, game), made, items, map[anchorId := game], dest)
    requires Distributed(made, placed, items, dest)
    ensures Identify(placed, game, anchorId) == Just(WithGame(placed, game, anchorId, IDENTIFIED))
    ensures Constraints(WithGame(placed, game, anchorId, IDENTIFIED))
  {
    hide Constraints, IdsFree, RaOf, Made, NewIdsFree;
    IdsFreeExactly(db, game, items, anchorId);
    assert placed.games == made.games;
    NamingExactly(db, made, placed, game, items, anchorId, dest);
  }

  lemma Assembled(db: Db, made: Db, placed: Db, named: Db, after: Db, game: nat, items: seq<nat>, anchorId: nat,
    anchor: Profile, dest: map<nat, nat>, ids: seq<nat>)
    requires Prepared(db, made, placed, named, game, items, anchorId, dest)
    requires Constraints(db) && AllWhole(db, game)
    requires forall n :: n in items <==> Listed(db, n, game)
    requires anchor.media in items && RaOf(db, anchor.media) == anchorId
    requires (forall k :: 0 <= k < |ids| ==> ids[k] in dest) && forall id :: id in dest ==> id in ids
    requires forall k :: 0 <= k < |ids| ==>
      FitsAnchor(named, dest[ids[k]], AnchorRow(named, items, ids[k], anchorId, anchor))
    requires Anchored(named, after, ids, dest, items, anchorId, anchor)
    ensures SplitInto(db, after, game, dest) && RaIdsOf(db, game) == dest.Keys
  {
    hide Constraints, AllWhole, RaOf, Made, Distributed, Contiguous, Anchored, AnchorRow, SplitGame,
      FitsAnchor, OneToOne, SlotsOf, RaIdsOf, Prepared;
    ProfileConstraints(db);
    AnchoredFrame(named, after, ids, dest, items, anchorId, anchor);
    PreparedPlaces(db, made, placed, named, game, items, anchorId, dest);
    OthersStay(db, made, placed, named, game, items, anchorId, dest);
    forall id | id in dest
      ensures SplitGame(db, after, game, id, dest[id])
    {
      var k :| 0 <= k < |ids| && ids[k] == id;
      PartIsSplit(db, made, placed, named, after, game, items, anchorId, anchor, dest, ids, id);
    }
    assert anchorId in dest;
    IdsAreDestinations(db, made, game, items, anchorId, dest);
  }

  lemma OthersStay(db: Db, made: Db, placed: Db, named: Db, game: nat, items: seq<nat>, anchorId: nat,
    dest: map<nat, nat>)
    requires Prepared(db, made, placed, named, game, items, anchorId, dest)
    ensures Made(WithoutProfiles(db, game), made, items, map[anchorId := game], dest)
    ensures forall g :: g in db.games && g != game ==> g in named.games && named.games[g] == db.games[g]
  {
    hide RaOf, Contiguous, OneToOne, NewId;
    PreparedGames(db, made, placed, named, game, items, anchorId, dest);
    forall g | g in db.games && g != game
      ensures g in named.games && named.games[g] == db.games[g]
    {
      assert g in WithoutProfiles(db, game).games;
    }
  }

  /** The resulting games are one for each RA id among the banks of the old one. */
  lemma IdsAreDestinations(db: Db, made: Db, game: nat, items: seq<nat>, anchorId: nat, dest: map<nat, nat>)
    requires Made(WithoutProfiles(db, game), made, items, map[anchorId := game], dest)
    requires forall n :: n in items <==> Listed(db, n, game)
    requires AllWhole(db, game) && exists m :: m in items && RaOf(db, m) == anchorId
    ensures RaIdsOf(db, game) == dest.Keys
  {
    hide RaOf, Made, Whole, RaIdsOfMedia;
    MadeBasics(db, made, game, items, anchorId, dest);
    forall id | id in dest
      ensures id in RaIdsOf(db, game)
    {
      DestinationIsListed(db, made, game, items, anchorId, dest, id);
      var m :| m in items && RaOf(db, m) == id;
      MediaIdIsGameId(db, game, m);
    }
    forall id | id in RaIdsOf(db, game)
      ensures id in dest
    {
      var k :| k in BanksOfGame(db, game) && db.banks[k].ra != 0 && db.banks[k].ra == id;
      BankIdIsMediaId(db, game, k);
      assert k in BanksOf(db, k.media) && Listed(db, k.media, game);
      var i :| 0 <= i < |items| && items[i] == k.media;
      RaOfReads(db, WithoutProfiles(db, game), k.media);
    }
  }

  lemma MediaIdIsGameId(db: Db, game: nat, m: nat)
    requires Owned(db, m, game) && Whole(db, m)
    ensures RaOf(db, m) in RaIdsOf(db, game)
  {
    WholeHasItsId(db, m);
    assert RaOf(db, m) in RaIdsOfMedia(db, m);
    var k :| k in BanksOf(db, m) && db.banks[k].ra != 0 && db.banks[k].ra == RaOf(db, m);
    assert k in BanksOfGame(db, game);
  }

  lemma BankIdIsMediaId(db: Db, game: nat, k: BankKey)
    requires k in BanksOfGame(db, game) && db.banks[k].ra != 0 && AllWhole(db, game)
    ensures RaOf(db, k.media) == db.banks[k].ra
  {
    assert Whole(db, k.media);
    WholeHasItsId(db, k.media);
    assert k in BanksOf(db, k.media);
    assert db.banks[k].ra in RaIdsOfMedia(db, k.media);
  }

  /** If an id is taken or a medium in the way, some statement of the transaction breaks the uniqueness of RA ids. */
  lemma SplitFails(db: Db, game: nat)
    requires Constraints(db) && game in db.games && AllWhole(db, game)
    requires HasAnchor(db, game) && !(IdsFree(db, game, AnchorId(db, game)) && OutOfTheWay(db, game, AnchorId(db, game)))
    ensures Split(db, game) == Nil
  {
    hide Constraints, AllWhole, IdsFree, RaOf, MakeGames, Distribute, InsertAnchors, SplitItems, NewIdsFree,
      Made, Distributed, AnchorOf, WithoutProfiles, Owned, Identify, Contiguous, OutOfTheWay;
    var items := SplitItems(db, game);
    var anchorId := AnchorId(db, game);
    ItemsAndAnchor(db, game);
    IdsFreeExactly(db, game, items, anchorId);
    NonZeroOnBare(db, game, items);
    WithoutProfilesKeeps(db, game);
    StartsOneToOne(db, game, anchorId);
    MakeGamesExactly(WithoutProfiles(db, game), items, map[anchorId := game]);
    if NewIdsFree(WithoutProfiles(db, game), items, map[anchorId := game]) {
      var made := MakeGames(WithoutProfiles(db, game), items, map[anchorId := game]).value.0;
      var dest := MakeGames(WithoutProfiles(db, game), items, map[anchorId := game]).value.1;
      SecondLoopExactly(db, made, game, items, anchorId, dest);
      if OutOfTheWay(db, game, anchorId) {
        var placed := Distribute(made, game, items, dest, map[]).value;
        SameGamesPlaced(made, placed, items, dest);
        NamingExactly(db, made, placed, game, items, anchorId, dest);
      }
    }
  }

  lemma NonZeroOnBare(db: Db, game: nat, items: seq<nat>)
    requires forall m :: m in items ==> RaOf(db, m) != 0
    ensures forall k :: 0 <= k < |items| ==> RaOf(WithoutProfiles(db, game), items[k]) != 0
  {
    hide RaOf;
    forall k | 0 <= k < |items| ensures RaOf(WithoutProfiles(db, game), items[k]) != 0 {
      RaOfReads(db, WithoutProfiles(db, game), items[k]);
      assert items[k] in items;
    }
  }

  lemma StartsOneToOne(db: Db, game: nat, anchorId: nat)
    requires game in db.games
    ensures OneToOne(WithoutProfiles(db, game), map[anchorId := game])
  {
  }

  lemma SameGamesPlaced(made: Db, placed: Db, items: seq<nat>, dest: map<nat, nat>)
    requires Distributed(made, placed, items, dest)
    ensures placed.games == made.games
  {
    hide RaOf;
  }

  // ---- ResolveGameConflict ----

  lemma SplitConflictIsWhole(db: Db, game: nat)
    requires Inspect(db, game) == Just(SplitConflict)
    ensures game in db.games && AllWhole(db, game)
  {
    hide Whole, RaIdsOf, MergeSet, ExternalMatch, BanksOf;
    forall m | Listed(db, m, game)
      ensures Whole(db, m)
    {
      assert m in MediaOf(db, game);
    }
  }

  /**
   * A SPLIT commits exactly when the game has an anchor, no RA id of its media is held elsewhere, and no medium
   * without banks has an ordinal that the old game's media are given. Then there is one game for each of its RA
   * ids, which owns exactly the media whose banks all have that id, numbered without gaps, with one launch
   * profile, the Drive 1 anchor, on a medium of its own. Otherwise nothing changes.
   */
  lemma ResolveSplitExactly(db: Db, game: nat)
    requires Constraints(db) && Inspect(db, game) == Just(SplitConflict)
    ensures Resolve(db, game).1 <==>
      HasAnchor(db, game) && IdsFree(db, game, AnchorId(db, game)) && OutOfTheWay(db, game, AnchorId(db, game))
    ensures Resolve(db, game).1 ==> Constraints(Resolve(db, game).0)
    ensures Resolve(db, game).1 ==> exists dest :: SplitDone(db, Resolve(db, game).0, game, dest)
    ensures !Resolve(db, game).1 ==> Resolve(db, game).0 == db
  {
    hide Constraints, AllWhole, IdsFree, OutOfTheWay, Inspect, Split, SplitDone, RaIdsOf, Merge;
    SplitConflictIsWhole(db, game);
    if HasAnchor(db, game) {
      if IdsFree(db, game, AnchorId(db, game)) && OutOfTheWay(db, game, AnchorId(db, game)) {
        SplitCommits(db, game);
      } else {
        SplitFails(db, game);
      }
    } else {
      NoAnchorNoSplit(db, game);
    }
  }

  lemma NoAnchorNoSplit(db: Db, game: nat)
    requires !HasAnchor(db, game)
    ensures Split(db, game) == Nil
  {
    hide HasAnchor;
  }

  lemma MergeConflictIsMerge(db: Db, game: nat)
    requires Inspect(db, game) == Just(MergeConflict)
    ensures game in db.games && RaIdsOf(db, game) != {} && |MergeSet(db, Lowest(RaIdsOf(db, game)))| >= 2
    ensures Lowest(RaIdsOf(db, game)) != 0
  {
    hide MergeSet;
  }

  /** A MERGE commits exactly when no game outside the merge holds the id; otherwise nothing changes. */
  lemma ResolveMergeExactly(db: Db, game: nat)
    requires Constraints(db) && Inspect(db, game) == Just(MergeConflict)
    ensures RaIdsOf(db, game) != {}
    ensures var ra := Lowest(RaIdsOf(db, game));
      && (Resolve(db, game).1 <==> forall h :: h in db.games && h !in MergeSet(db, ra) ==> db.games[h].ra != ra)
      && (Resolve(db, game).1 ==> Merge(db, ra) == Just(Resolve(db, game).0) && Constraints(Resolve(db, game).0))
      && (!Resolve(db, game).1 ==> Resolve(db, game).0 == db)
  {
    hide Constraints, Inspect, Merge, MergeSet, RaIdsOf, Split;
    MergeConflictIsMerge(db, game);
    MergeExactly(db, Lowest(RaIdsOf(db, game)));
  }

  /** Whatever the conflict, no medium and no bank is lost, and the schema's constraints still hold. */
  lemma ResolveLosesNothing(db: Db, game: nat)
    requires Constraints(db)
    ensures var after := Resolve(db, game).0;
      Constraints(after) && after.media.Keys == db.media.Keys && after.banks == db.banks
  {
    hide Constraints, Inspect, Merge, MergeSet, RaIdsOf, Split, SplitGame, HasAnchor, IdsFree, OutOfTheWay;
    if Inspect(db, game) == Just(SplitConflict) {
      ResolveSplitExactly(db, game);
    } else if Inspect(db, game) == Just(MergeConflict) {
      ResolveMergeExactly(db, game);
      MergeConflictIsMerge(db, game);
      MergeExactly(db, Lowest(RaIdsOf(db, game)));
    }
  }
}
