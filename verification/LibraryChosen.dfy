/** Which games a MERGE takes: the game the user chose is one of them exactly when all its banks are identified. */
module LibraryChosen {
  import opened Extremes
  import opened LibraryTables
  import opened LibraryMerge
  import opened LibraryResolve

  lemma OneIdIsLowest(ids: set<nat>)
    requires |ids| == 1
    ensures ids == {Lowest(ids)}
  {
    var id := Lowest(ids);
    if other :| other in ids && other != id {
      assert {id, other} <= ids;
      SubsetIsSmaller({id, other}, ids);
    }
  }

  lemma MergeHasOneId(db: Db, game: nat)
    requires Inspect(db, game) == Just(MergeConflict)
    ensures game in db.games && db.games[game].state == CONFLICT && |RaIdsOf(db, game)| == 1
  {
    hide RaIdsOf, MergeSet;
  }

  /** The chosen game is merged with the others exactly when none of its banks is unregistered or unidentified. */
  lemma ChosenIsMergedExactly(db: Db, game: nat)
    requires Inspect(db, game) == Just(MergeConflict)
    ensures RaIdsOf(db, game) != {}
    ensures game in MergeSet(db, Lowest(RaIdsOf(db, game))) <==> AllIdentified(db, BanksOfGame(db, game))
  {
    hide Inspect, AllIdentified, BanksOfGame, RaIdsOf;
    MergeHasOneId(db, game);
    OneIdIsLowest(RaIdsOf(db, game));
  }

  /** A chosen game outside the merge stays as it is, still in conflict, and its media stay with it. */
  lemma ChosenIsLeftBehind(db: Db, game: nat)
    requires Constraints(db) && Inspect(db, game) == Just(MergeConflict) && Resolve(db, game).1
    requires !AllIdentified(db, BanksOfGame(db, game))
    ensures var after := Resolve(db, game).0;
      && game in after.games && after.games[game] == db.games[game] && after.games[game].state == CONFLICT
      && forall m :: Owned(db, m, game) ==> m in after.media && after.media[m] == db.media[m]
  {
    hide Constraints, Inspect, AllIdentified, BanksOfGame, RaIdsOf, Merge, Resolve, MergeSet;
    MergeHasOneId(db, game);
    MergeConflictIsMerge(db, game);
    var ra := Lowest(RaIdsOf(db, game));
    ChosenIsMergedExactly(db, game);
    ResolveMergeExactly(db, game);
    MergeExactly(db, ra);
    LeftBehind(db, Resolve(db, game).0, MergeSet(db, ra), ra, game);
  }

  lemma LeftBehind(db: Db, after: Db, games: set<nat>, ra: nat, game: nat)
    requires games != {} && MergedInto(db, after, games, ra) && game in db.games && game !in games
    ensures game in after.games && after.games[game] == db.games[game]
    ensures forall m :: Owned(db, m, game) ==> m in after.media && after.media[m] == db.media[m]
  {
    assert game in db.games.Keys - games + {Lowest(games)};
  }

  // ---- an input ----

  const BOTH: Bank := Bank(9, 5, IDENTIFIED)

  /**
   * Three games in conflict over RA id 5, with a medium each, as a synchronization leaves them; the third medium
   * has a second bank that is not registered.
   */
  const RIVALS: Db := Db(
    map[1 := Game(0, CONFLICT), 2 := Game(0, CONFLICT), 3 := Game(0, CONFLICT)],
    map[11 := In(1, 0), 12 := In(2, 0), 13 := In(3, 0)],
    map[BankKey(11, 0) := BOTH, BankKey(12, 0) := BOTH, BankKey(13, 0) := BOTH, BankKey(13, 1) := Bank(8, 0, UNREGISTERED)],
    map[], map[])

  lemma RivalIds(g: nat)
    requires g in RIVALS.games
    ensures RaIdsOf(RIVALS, g) == {5}
  {
    var key := BankKey(10 + g, 0);
    assert key in BanksOfGame(RIVALS, g) && RIVALS.banks[key].ra == 5;
  }

  lemma RivalBanks()
    ensures AllIdentified(RIVALS, BanksOfGame(RIVALS, 1)) && AllIdentified(RIVALS, BanksOfGame(RIVALS, 2))
    ensures !AllIdentified(RIVALS, BanksOfGame(RIVALS, 3))
  {
    assert BankKey(13, 1) in BanksOfGame(RIVALS, 3);
  }

  lemma RivalsMerge()
    ensures MergeSet(RIVALS, 5) == {1, 2}
  {
    hide RaIdsOf, AllIdentified, BanksOfGame;
    RivalIds(1);
    RivalIds(2);
    RivalBanks();
  }

  lemma RivalsFit()
    ensures Constraints(RIVALS)
  {
  }

  lemma RivalsKind()
    ensures RaIdsOf(RIVALS, 3) == {5} && Inspect(RIVALS, 3) == Just(MergeConflict)
  {
    hide RaIdsOf, MergeSet;
    RivalIds(3);
    RivalsMerge();
    assert Lowest({5}) == 5 && |{5}| == 1 && |{1, 2}| == 2;
  }

  lemma FreeFor(after: Db)
    requires MergedInto(RIVALS, after, {1, 2}, 5)
    ensures Owned(after, 12, 1) && 2 !in after.games
  {
    assert Lowest({1, 2}) == 1;
    assert 12 in RIVALS.media && RIVALS.media[12] == In(2, 0);
  }

  /** Resolving the third game merges the first two and leaves the third where it was. */
  lemma ResolvingThirdMergesOthers()
    ensures Constraints(RIVALS) && Inspect(RIVALS, 3) == Just(MergeConflict) && Resolve(RIVALS, 3).1
    ensures var after := Resolve(RIVALS, 3).0;
      && Owned(after, 12, 1) && 2 !in after.games && 3 in after.games && after.games[3] == Game(0, CONFLICT)
  {
    hide RaIdsOf, MergeSet, Merge, AllIdentified, BanksOfGame, Inspect, Resolve, Constraints, MergedInto;
    RivalsFit();
    RivalsKind();
    RivalsMerge();
    RivalBanks();
    assert Lowest({5}) == 5;
    ResolveMergeExactly(RIVALS, 3);
    MergeExactly(RIVALS, 5);
    ChosenIsLeftBehind(RIVALS, 3);
    FreeFor(Resolve(RIVALS, 3).0);
  }
}
