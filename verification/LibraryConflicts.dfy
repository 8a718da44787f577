/**
 * When resolving a conflict succeeds, said of the rows alone: a MERGE of games that all carry one RA id, or a SPLIT
 * of a game whose media each carry one and whose ids nobody else has.
 */
module LibraryConflicts {
  import opened Extremes
  import opened LibraryTables
  import opened LibraryMerge
  import opened LibrarySplit
  import opened LibraryResolve

  // ---- rows ----

  /** Some bank of the game has this id. */
  ghost predicate Carries(db: Db, game: nat, ra: nat) {
    ra != 0 && exists k :: k in db.banks && Owned(db, k.media, game) && db.banks[k].ra == ra
  }

  /** Some bank of another game has this id. */
  ghost predicate CarriedElsewhere(db: Db, game: nat, ra: nat) {
    exists k :: k in db.banks && k.media in db.media && db.media[k.media].In? && db.media[k.media].game != game &&
      db.banks[k].ra == ra
  }

  /** One bank has the id, and every bank is identified as it. */
  ghost predicate WhollyOf(db: Db, m: nat, ra: nat) {
    && ra != 0 && (exists k :: k in db.banks && k.media == m && db.banks[k].ra == ra)
    && (forall k :: k in db.banks && k.media == m ==>
          db.banks[k].state == IDENTIFIED && (db.banks[k].ra == ra || db.banks[k].ra == 0))
  }

  ghost predicate HasBank(db: Db, m: nat) {
    exists k :: k in db.banks && k.media == m
  }

  /** The game is in conflict, and all its banks are identified as this id. */
  ghost predicate Joins(db: Db, game: nat, ra: nat) {
    && game in db.games && db.games[game].state == CONFLICT && Carries(db, game, ra)
    && (forall k :: k in db.banks && Owned(db, k.media, game) ==>
          db.banks[k].state == IDENTIFIED && (db.banks[k].ra == ra || db.banks[k].ra == 0))
  }

  // ---- what the queries say of them ----

  lemma CarriesIs(db: Db, game: nat, ra: nat)
    ensures Carries(db, game, ra) <==> ra in RaIdsOf(db, game)
  {
    if Carries(db, game, ra) {
      var k :| k in db.banks && Owned(db, k.media, game) && db.banks[k].ra == ra;
      assert k in BanksOfGame(db, game);
    }
  }

  lemma HasBankIs(db: Db, m: nat)
    ensures HasBank(db, m) <==> BanksOf(db, m) != {}
  {
    if HasBank(db, m) {
      var k :| k in db.banks && k.media == m;
      assert k in BanksOf(db, m);
    }
  }

  lemma WholeIs(db: Db, m: nat)
    ensures Whole(db, m) <==> exists ra :: WhollyOf(db, m, ra)
    ensures forall ra :: WhollyOf(db, m, ra) ==> RaOf(db, m) == ra
  {
    forall ra | WhollyOf(db, m, ra) ensures Whole(db, m) && RaOf(db, m) == ra {
      WhollyIsWhole(db, m, ra);
    }
    if Whole(db, m) {
      WholeHasItsId(db, m);
      WholeIsWholly(db, m);
    }
  }

  lemma WhollyIsWhole(db: Db, m: nat, ra: nat)
    requires WhollyOf(db, m, ra)
    ensures Whole(db, m) && RaOf(db, m) == ra
  {
    var k :| k in db.banks && k.media == m && db.banks[k].ra == ra;
    assert k in BanksOf(db, m);
    assert ra in RaIdsOfMedia(db, m);
    assert RaIdsOfMedia(db, m) == {ra};
  }

  lemma WholeIsWholly(db: Db, m: nat)
    requires Whole(db, m) && RaIdsOfMedia(db, m) == {RaOf(db, m)} && RaOf(db, m) != 0
    ensures WhollyOf(db, m, RaOf(db, m))
  {
    var ra := RaOf(db, m);
    assert ra in RaIdsOfMedia(db, m);
    var k :| k in BanksOf(db, m) && db.banks[k].ra != 0 && db.banks[k].ra == ra;
    forall k | k in db.banks && k.media == m
      ensures db.banks[k].state == IDENTIFIED && (db.banks[k].ra == ra || db.banks[k].ra == 0)
    {
      assert k in BanksOf(db, m);
      if db.banks[k].ra != 0 { assert db.banks[k].ra in RaIdsOfMedia(db, m); }
    }
  }

  lemma ElsewhereIs(db: Db, game: nat)
    ensures ExternalMatch(db, game) <==> exists ra :: Carries(db, game, ra) && CarriedElsewhere(db, game, ra)
  {
    if ExternalMatch(db, game) {
      var k :| k in db.banks && k.media in db.media && db.media[k.media].In? && db.media[k.media].game != game &&
        db.banks[k].ra in RaIdsOf(db, game);
      CarriesIs(db, game, db.banks[k].ra);
      assert CarriedElsewhere(db, game, db.banks[k].ra);
    }
    if ra :| Carries(db, game, ra) && CarriedElsewhere(db, game, ra) {
      CarriesIs(db, game, ra);
    }
  }

  lemma JoinsIs(db: Db, g: nat, ra: nat)
    ensures Joins(db, g, ra) <==> g in MergeSet(db, ra) && ra != 0
  {
    if Joins(db, g, ra) { JoinsMerge(db, g, ra); }
    if g in MergeSet(db, ra) && ra != 0 { MergeJoins(db, g, ra); }
  }

  lemma JoinsMerge(db: Db, g: nat, ra: nat)
    requires Joins(db, g, ra)
    ensures g in MergeSet(db, ra)
  {
    CarriesIs(db, g, ra);
    forall id | id in RaIdsOf(db, g) ensures id == ra {
      var k :| k in BanksOfGame(db, g) && db.banks[k].ra != 0 && db.banks[k].ra == id;
    }
    assert RaIdsOf(db, g) == {ra};
  }

  lemma MergeJoins(db: Db, g: nat, ra: nat)
    requires g in MergeSet(db, ra) && ra != 0
    ensures Joins(db, g, ra)
  {
    assert ra in RaIdsOf(db, g);
    CarriesIs(db, g, ra);
    forall k | k in db.banks && Owned(db, k.media, g)
      ensures db.banks[k].state == IDENTIFIED && (db.banks[k].ra == ra || db.banks[k].ra == 0)
    {
      assert k in BanksOfGame(db, g);
      if db.banks[k].ra != 0 { assert db.banks[k].ra in RaIdsOf(db, g); }
    }
  }

  ghost predicate TwoJoined(db: Db, ra: nat) {
    exists g, h :: g != h && Joins(db, g, ra) && Joins(db, h, ra)
  }

  lemma TwoJoin(db: Db, ra: nat)
    requires ra != 0
    ensures |MergeSet(db, ra)| >= 2 <==> TwoJoined(db, ra)
  {
    hide MergeSet, Joins;
    forall g ensures Joins(db, g, ra) <==> g in MergeSet(db, ra) { JoinsIs(db, g, ra); }
    var games := MergeSet(db, ra);
    if |games| >= 2 {
      var g :| g in games;
      OneElement(games, g);
      var h :| h in games && h != g;
      assert Joins(db, g, ra) && Joins(db, h, ra);
    }
    if g, h :| g != h && Joins(db, g, ra) && Joins(db, h, ra) {
      SubsetIsSmaller({g, h}, games);
    }
  }

  // ---- the kind of a conflict ----

  /** Two banks of the game have different ids. */
  ghost predicate CarriesTwo(db: Db, game: nat) {
    exists a, b :: a != b && Carries(db, game, a) && Carries(db, game, b)
  }

  ghost predicate CarriesOnly(db: Db, game: nat, ra: nat) {
    Carries(db, game, ra) && forall other :: Carries(db, game, other) ==> other == ra
  }

  lemma IdsAre(db: Db, game: nat)
    ensures RaIdsOf(db, game) == {} <==> forall ra :: !Carries(db, game, ra)
    ensures |RaIdsOf(db, game)| >= 2 <==> CarriesTwo(db, game)
    ensures forall ra :: CarriesOnly(db, game, ra) ==> |RaIdsOf(db, game)| == 1 && Lowest(RaIdsOf(db, game)) == ra
    ensures |RaIdsOf(db, game)| == 1 ==> CarriesOnly(db, game, Lowest(RaIdsOf(db, game)))
  {
    hide Carries, RaIdsOf;
    var ids := RaIdsOf(db, game);
    forall ra ensures Carries(db, game, ra) <==> ra in ids { CarriesIs(db, game, ra); }
    if ids != {} {
      var a :| a in ids;
      OneElement(ids, a);
      if |ids| >= 2 {
        var b :| b in ids && b != a;
        assert Carries(db, game, a) && Carries(db, game, b);
      }
      if x, y :| x != y && Carries(db, game, x) && Carries(db, game, y) {
        SubsetIsSmaller({x, y}, ids);
      }
    }
    forall ra | CarriesOnly(db, game, ra) ensures |ids| == 1 && Lowest(ids) == ra {
      OneElement(ids, ra);
    }
    if |ids| == 1 { OneElement(ids, Lowest(ids)); }
  }

  /** The media of the game are clear about their ids, and nobody else's media have them. */
  ghost predicate Separable(db: Db, game: nat) {
    && (forall m :: Owned(db, m, game) && HasBank(db, m) ==> exists ra :: WhollyOf(db, m, ra))
    && (forall ra :: Carries(db, game, ra) ==> !CarriedElsewhere(db, game, ra))
  }

  lemma SeparableIs(db: Db, game: nat)
    ensures Separable(db, game) <==>
      (forall m :: m in MediaOf(db, game) && BanksOf(db, m) != {} ==> Whole(db, m)) && !ExternalMatch(db, game)
  {
    hide WhollyOf, Whole, BanksOf, HasBank, ExternalMatch, Carries, CarriedElsewhere;
    ElsewhereIs(db, game);
    forall m ensures (Whole(db, m) <==> exists ra :: WhollyOf(db, m, ra)) && (HasBank(db, m) <==> BanksOf(db, m) != {}) {
      WholeIs(db, m);
      HasBankIs(db, m);
    }
  }

  /** What the inspection says of a conflict, in terms of the rows. */
  lemma KindExactly(db: Db, game: nat)
    ensures Inspect(db, game) == Nil <==> game !in db.games
    ensures Inspect(db, game) == Just(NoConflict) <==> game in db.games && db.games[game].state != CONFLICT
    ensures Inspect(db, game) == Just(SplitConflict) <==>
      game in db.games && db.games[game].state == CONFLICT && CarriesTwo(db, game) && Separable(db, game)
    ensures Inspect(db, game) == Just(MergeConflict) <==>
      && game in db.games && db.games[game].state == CONFLICT
      && exists ra :: CarriesOnly(db, game, ra) && TwoJoined(db, ra)
  {
    hide RaIdsOf, CarriesTwo, CarriesOnly, Separable, MergeSet, Whole, BanksOf, ExternalMatch, Joins;
    if game in db.games && db.games[game].state == CONFLICT {
      IdsAre(db, game);
      SeparableIs(db, game);
      MergeIs(db, game);
    }
  }

  lemma MergeIs(db: Db, game: nat)
    ensures (|RaIdsOf(db, game)| == 1 && |MergeSet(db, Lowest(RaIdsOf(db, game)))| >= 2) <==>
      exists ra :: CarriesOnly(db, game, ra) && TwoJoined(db, ra)
  {
    hide RaIdsOf, CarriesOnly, MergeSet, Joins;
    IdsAre(db, game);
    if |RaIdsOf(db, game)| == 1 {
      var ra := Lowest(RaIdsOf(db, game));
      OnlyIsNotZero(db, game, ra);
      TwoJoin(db, ra);
    }
    if ra :| CarriesOnly(db, game, ra) && TwoJoined(db, ra) {
      OnlyIsNotZero(db, game, ra);
      TwoJoin(db, ra);
    }
  }

  lemma OnlyIsNotZero(db: Db, game: nat, ra: nat)
    requires CarriesOnly(db, game, ra)
    ensures ra != 0
  {
  }

  // ---- when resolving succeeds ----

  /** Games to merge, and nobody outside the merge with their id. */
  ghost predicate Mergeable(db: Db, game: nat) {
    && game in db.games && db.games[game].state == CONFLICT
    && exists ra :: CarriesOnly(db, game, ra) && TwoJoined(db, ra) && OnlyJoined(db, ra)
  }

  /** Every game that holds the id joins. */
  ghost predicate OnlyJoined(db: Db, ra: nat) {
    forall o :: o in db.games && db.games[o].ra == ra ==> Joins(db, o, ra)
  }

  /** A separable game with an anchor, whose ids no other game has, and no medium without banks in the way. */
  ghost predicate Splittable(db: Db, game: nat) {
    && game in db.games && db.games[game].state == CONFLICT && CarriesTwo(db, game) && Separable(db, game)
    && HasAnchor(db, game) && IdsFree(db, game, AnchorId(db, game)) && OutOfTheWay(db, game, AnchorId(db, game))
  }

  /**
   * Resolving succeeds exactly for a game to merge or to split. For every other game, one with an id that another
   * game's media also have or with a medium of two ids among them, it changes nothing.
   */
  lemma ResolvesExactly(db: Db, game: nat)
    requires Constraints(db)
    ensures Resolve(db, game).1 <==> Mergeable(db, game) || Splittable(db, game)
    ensures !Resolve(db, game).1 ==> Resolve(db, game).0 == db
  {
    hide Constraints, Inspect, Split, Merge, RaIdsOf, CarriesTwo, Separable, IdsFree, OutOfTheWay, HasAnchor,
      CarriesOnly, Joins, Mergeable, Splittable;
    KindExactly(db, game);
    if Inspect(db, game) == Just(SplitConflict) {
      ResolveSplitExactly(db, game);
      SplitNotMerge(db, game);
    } else if Inspect(db, game) == Just(MergeConflict) {
      ResolveMergeExactly(db, game);
      MergeableExactly(db, game);
    } else {
      NeitherKind(db, game);
    }
  }

  lemma SplitNotMerge(db: Db, game: nat)
    requires Inspect(db, game) == Just(SplitConflict)
    ensures !Mergeable(db, game)
    ensures Splittable(db, game) <==>
      HasAnchor(db, game) && IdsFree(db, game, AnchorId(db, game)) && OutOfTheWay(db, game, AnchorId(db, game))
  {
    hide Inspect, CarriesTwo, Separable, IdsFree, OutOfTheWay, HasAnchor, CarriesOnly, Joins;
    KindExactly(db, game);
  }

  lemma NeitherKind(db: Db, game: nat)
    requires Inspect(db, game) != Just(SplitConflict) && Inspect(db, game) != Just(MergeConflict)
    ensures !Mergeable(db, game) && !Splittable(db, game)
  {
    hide Inspect, CarriesTwo, Separable, IdsFree, OutOfTheWay, HasAnchor, CarriesOnly, Joins;
    KindExactly(db, game);
  }

  lemma MergeableExactly(db: Db, game: nat)
    requires Inspect(db, game) == Just(MergeConflict)
    ensures !Splittable(db, game) && RaIdsOf(db, game) != {}
    ensures var ra := Lowest(RaIdsOf(db, game));
      Mergeable(db, game) <==> forall h :: h in db.games && h !in MergeSet(db, ra) ==> db.games[h].ra != ra
  {
    hide Inspect, CarriesTwo, Separable, IdsFree, OutOfTheWay, HasAnchor, CarriesOnly, Joins, MergeSet, RaIdsOf;
    KindExactly(db, game);
    var id :| CarriesOnly(db, game, id) && TwoJoined(db, id);
    IdsAre(db, game);
    var ra := Lowest(RaIdsOf(db, game));
    OnlyIsNotZero(db, game, id);
    forall o ensures Joins(db, o, ra) <==> o in MergeSet(db, ra) { JoinsIs(db, o, ra); }
    forall other ensures CarriesOnly(db, game, other) ==> other == ra {
    }
  }

  // ---- after a split ----

  /** After a committed SPLIT every bank with an id of the old game is on a medium of that id's game. */
  lemma SplitSeparates(db: Db, game: nat)
    requires Constraints(db) && Splittable(db, game)
    ensures Resolve(db, game).1 && HasAnchor(db, game)
    ensures exists dest :: SplitDone(db, Resolve(db, game).0, game, dest) && OnlyTheirs(Resolve(db, game).0, dest)
  {
    hide Constraints, Splittable, SplitDone, RaIdsOf, Resolve, OnlyTheirs;
    ResolvesExactly(db, game);
    SplittableIs(db, game);
    ResolveSplitExactly(db, game);
    var dest :| SplitDone(db, Resolve(db, game).0, game, dest);
    TheirsOnly(db, Resolve(db, game).0, game, dest);
  }

  lemma SplittableIs(db: Db, game: nat)
    requires Splittable(db, game)
    ensures Inspect(db, game) == Just(SplitConflict) && Separable(db, game) && HasAnchor(db, game)
  {
    hide Inspect, CarriesTwo, Separable, IdsFree, OutOfTheWay, HasAnchor;
    KindExactly(db, game);
  }

  /** A bank that has one of these ids is on a medium of the id's game, if its medium is of a game at all. */
  ghost predicate OnlyTheirs(after: Db, dest: map<nat, nat>) {
    forall k :: k in after.banks && k.media in after.media && after.media[k.media].In? && after.banks[k].ra in dest ==>
      after.media[k.media].game == dest[after.banks[k].ra]
  }

  lemma TheirsOnly(db: Db, after: Db, game: nat, dest: map<nat, nat>)
    requires Separable(db, game) && HasAnchor(db, game) && SplitDone(db, after, game, dest)
    ensures OnlyTheirs(after, dest)
  {
    hide Separable, SplitInto, RaIdsOf, HasAnchor, SplitKeeps, SplitOrders, SplitAnchors;
    forall k | k in after.banks && k.media in after.media && after.media[k.media].In? && after.banks[k].ra in dest
      ensures after.media[k.media].game == dest[after.banks[k].ra]
    {
      BankIsTheirs(db, after, game, dest, k);
    }
  }

  lemma BankIsTheirs(db: Db, after: Db, game: nat, dest: map<nat, nat>, k: BankKey)
    requires Separable(db, game) && SplitInto(db, after, game, dest) && RaIdsOf(db, game) == dest.Keys
    requires k in after.banks && k.media in after.media && after.media[k.media].In? && after.banks[k].ra in dest
    ensures after.media[k.media].game == dest[after.banks[k].ra]
  {
    hide SplitGame, RaIdsOf, WhollyOf, Carries, CarriedElsewhere;
    var ra := db.banks[k].ra;
    CarriesIs(db, game, ra);
    assert HasBank(db, k.media);
    HasBankIs(db, k.media);
    if Owned(db, k.media, game) {
      var id :| WhollyOf(db, k.media, id);
      WholeIs(db, k.media);
      BankOfWhole(db, k, id);
      assert Listed(db, k.media, game);
      IdIsCarried(db, game, ra);
    } else {
      assert after.media[k.media] == db.media[k.media];
      ElsewhereHas(db, game, k);
    }
  }

  lemma ElsewhereHas(db: Db, game: nat, k: BankKey)
    requires k in db.banks && k.media in db.media && db.media[k.media].In? && db.media[k.media].game != game
    ensures CarriedElsewhere(db, game, db.banks[k].ra)
  {
  }

  lemma BankOfWhole(db: Db, k: BankKey, id: nat)
    requires k in db.banks && WhollyOf(db, k.media, id)
    ensures db.banks[k].ra == id || db.banks[k].ra == 0
  {
  }

  lemma IdIsCarried(db: Db, game: nat, ra: nat)
    requires Carries(db, game, ra)
    ensures ra != 0
  {
  }

  // ---- an input ----

  /** One game with two media of different games, as two disks registered together. */
  const PAIR: Db := Db(
    map[1 := Game(0, CONFLICT)],
    map[11 := In(1, 0), 12 := In(1, 1)],
    map[BankKey(11, 0) := Bank(9, 5, IDENTIFIED), BankKey(12, 0) := Bank(8, 6, IDENTIFIED)],
    map[Slot(1, 0) := Profile(11, 0, true)], map[])

  lemma PairIsSeparable()
    ensures CarriesTwo(PAIR, 1) && Separable(PAIR, 1)
    ensures WhollyOf(PAIR, 11, 5) && WhollyOf(PAIR, 12, 6)
  {
    assert BankKey(11, 0) in PAIR.banks && BankKey(12, 0) in PAIR.banks;
    assert WhollyOf(PAIR, 11, 5) && WhollyOf(PAIR, 12, 6);
    assert Carries(PAIR, 1, 5) && Carries(PAIR, 1, 6);
  }

  lemma PairIds()
    ensures HasAnchor(PAIR, 1) && AnchorId(PAIR, 1) == 5 && IdsFree(PAIR, 1, 5) && OutOfTheWay(PAIR, 1, 5)
  {
    hide WhollyOf, RaOf, Count, SplitItems;
    PairIsSeparable();
    WholeIs(PAIR, 11);
    WholeIs(PAIR, 12);
    assert Slot(1, 0) in PAIR.profiles;
    forall m | Owned(PAIR, m, 1) ensures BanksOf(PAIR, m) != {} {
      assert BankKey(m, 0) in BanksOf(PAIR, m);
    }
  }

  lemma PairFits()
    ensures Constraints(PAIR)
  {
  }

  lemma PairIsSplittable()
    ensures Splittable(PAIR, 1) && HasAnchor(PAIR, 1) && AnchorId(PAIR, 1) == 5
  {
    hide IdsFree, OutOfTheWay, HasAnchor, Separable, CarriesTwo, WhollyOf, AnchorOf, RaOf;
    PairIsSeparable();
    PairIds();
  }

  /** The game is split: each medium has a game of its own id. */
  lemma PairIsSplit()
    ensures Constraints(PAIR) && Resolve(PAIR, 1).1
    ensures var after := Resolve(PAIR, 1).0;
      && Owned(after, 11, 1) && 1 in after.games && after.games[1] == Game(5, IDENTIFIED)
      && 12 in after.media && after.media[12].In? && after.media[12].game != 1
      && after.media[12].game in after.games && after.games[after.media[12].game] == Game(6, IDENTIFIED)
  {
    hide Resolve, SplitDone, RaOf, WhollyOf, OnlyTheirs, Constraints, Splittable, HasAnchor, AnchorId;
    PairFits();
    PairIsSplittable();
    SplitSeparates(PAIR, 1);
    var after := Resolve(PAIR, 1).0;
    var dest :| SplitDone(PAIR, after, 1, dest) && OnlyTheirs(after, dest);
    PairIsSeparable();
    WholeIs(PAIR, 11);
    WholeIs(PAIR, 12);
    PairParts(after, dest);
  }

  lemma PairParts(after: Db, dest: map<nat, nat>)
    requires HasAnchor(PAIR, 1) && AnchorId(PAIR, 1) == 5 && SplitDone(PAIR, after, 1, dest)
    requires RaOf(PAIR, 11) == 5 && RaOf(PAIR, 12) == 6
    ensures Owned(after, 11, 1) && 1 in after.games && after.games[1] == Game(5, IDENTIFIED)
    ensures 12 in after.media && after.media[12].In? && after.media[12].game in after.games
    ensures after.games[after.media[12].game] == Game(6, IDENTIFIED)
  {
    hide RaOf, Contiguous, FitsAnchor, SlotsOf, RaIdsOfMedia, SplitOrders, SplitAnchors, AnchorOf, RaIdsOf;
    assert BankKey(11, 0) in BanksOf(PAIR, 11) && BankKey(12, 0) in BanksOf(PAIR, 12);
    assert Listed(PAIR, 11, 1) && Listed(PAIR, 12, 1);
  }
}
