/**
 * The library's tables as maps, the schema's constraints, and the single row updates that the library's
 * transactions are made of. A statement that would break a constraint fails, as it does in SQLite.
 */
module LibraryTables {
  datatype Option<T> = Nil | Just(value: T)

  const UNIDENTIFIED: nat := 0
  const IDENTIFIED: nat := 1
  const UNREGISTERED: nat := 2
  const CONFLICT: nat := 4

  /** ra is the RA game id; 0 stands for NULL. */
  datatype Game = Game(ra: nat, state: nat)

  datatype Place = Detached | In(game: nat, ordinal: nat)

  datatype BankKey = BankKey(media: nat, index: nat)

  /** hash is the RA hash of the bank; 0 stands for NULL. */
  datatype Bank = Bank(hash: nat, ra: nat, state: nat)

  datatype Slot = Slot(game: nat, drive: nat)

  datatype Profile = Profile(media: nat, index: nat, anchor: bool)

  /** Progress of one user in one RA game. */
  datatype ProgressKey = ProgressKey(user: nat, ra: nat)

  datatype Progress = Progress(ra: nat, coreTotal: nat, coreUnlocked: nat, hardcoreUnlocked: nat)

  /** A media row is named by its MD5, here a number. */
  datatype Db = Db(
    games: map<nat, Game>, media: map<nat, Place>, banks: map<BankKey, Bank>, profiles: map<Slot, Profile>,
    progress: map<ProgressKey, Progress>)

  predicate Owned(db: Db, m: nat, game: nat) {
    m in db.media && db.media[m].In? && db.media[m].game == game
  }

  function MediaOf(db: Db, game: nat): set<nat> {
    set m | m in db.media && Owned(db, m, game)
  }

  // ---- the constraints of the schema ----

  /** games.ra_game_id UNIQUE. */
  predicate UniqueRa(db: Db) {
    forall g, h :: g in db.games && h in db.games && db.games[g].ra == db.games[h].ra != 0 ==> g == h
  }

  /** media.game_id REFERENCES games(id). */
  predicate OwnersExist(db: Db) {
    forall m :: m in db.media && db.media[m].In? ==> db.media[m].game in db.games
  }

  /** media UNIQUE(game_id, ordinal). */
  predicate UniqueOrdinals(db: Db) {
    forall m, n :: m in db.media && n in db.media && db.media[m].In? && db.media[m] == db.media[n] ==> m == n
  }

  predicate BanksBelong(db: Db) {
    forall k :: k in db.banks ==> k.media in db.media
  }

  /** The three foreign keys of launch_profiles. */
  predicate ProfilesRefer(db: Db) {
    forall p :: p in db.profiles ==>
      && p.game in db.games && p.drive <= 1
      && Owned(db, db.profiles[p].media, p.game)
      && BankKey(db.profiles[p].media, db.profiles[p].index) in db.banks
  }

  predicate OneAnchorEach(db: Db) {
    forall p, q :: p in db.profiles && q in db.profiles && db.profiles[p].anchor && db.profiles[q].anchor ==>
      p.game == q.game ==> p == q
  }

  predicate Constraints(db: Db) {
    UniqueRa(db) && OwnersExist(db) && UniqueOrdinals(db) && BanksBelong(db) && ProfilesRefer(db) && OneAnchorEach(db)
  }

  /** What a statement leaves: nothing when a constraint would break. */
  function Checked(db: Db): Option<Db> {
    if Constraints(db) then Just(db) else Nil
  }

  // ---- rows ----

  function WithPlace(db: Db, m: nat, game: nat, ordinal: nat): Db {
    db.(media := db.media[m := In(game, ordinal)])
  }

  /** UPDATE media SET game_id = ?, ordinal = ? WHERE md5 = ? AND game_id = ?, which must change one row. */
  function Move(db: Db, m: nat, source: nat, target: nat, ordinal: nat): Option<Db> {
    if !Owned(db, m, source) then Nil else Checked(WithPlace(db, m, target, ordinal))
  }

  function SlotsOf(db: Db, game: nat): set<Slot> {
    set p | p in db.profiles && p.game == game
  }

  /** DELETE FROM launch_profiles WHERE game_id = ?. */
  function WithoutProfiles(db: Db, game: nat): Db {
    db.(profiles := db.profiles - SlotsOf(db, game))
  }

  /** DELETE FROM games WHERE id = ?, which must change one row. */
  function DropGame(db: Db, game: nat): Option<Db> {
    if game !in db.games then Nil else Checked(db.(games := db.games - {game}))
  }

  function WithGame(db: Db, game: nat, ra: nat, state: nat): Db {
    db.(games := db.games[game := Game(ra, state)])
  }

  /** UPDATE games SET ra_game_id = ?, identification_state = 1 WHERE id = ?, which must change one row. */
  function Identify(db: Db, game: nat, ra: nat): Option<Db> {
    if game !in db.games then Nil else Checked(WithGame(db, game, ra, IDENTIFIED))
  }

  // ---- SELECT md5 FROM media WHERE game_id = ? ORDER BY ordinal ----

  ghost function First(db: Db, ids: set<nat>): (m: nat)
    requires ids != {} && forall i :: i in ids ==> i in db.media && db.media[i].In?
    ensures m in ids && forall i :: i in ids ==> db.media[m].ordinal <= db.media[i].ordinal
  {
    var i :| i in ids;
    if ids == {i} then i
    else
      assert ids == {i} + (ids - {i});
      var rest := First(db, ids - {i});
      assert forall j :: j in ids ==> j == i || j in ids - {i};
      if db.media[i].ordinal < db.media[rest].ordinal then i else rest
  }

  ghost function ByOrdinal(db: Db, ids: set<nat>): (items: seq<nat>)
    requires forall i :: i in ids ==> i in db.media && db.media[i].In?
    ensures forall k :: 0 <= k < |items| ==> items[k] in ids
    ensures |items| == |ids|
  {
    if ids == {} then [] else [First(db, ids)] + ByOrdinal(db, ids - {First(db, ids)})
  }

  predicate Rising(db: Db, items: seq<nat>) {
    && (forall k :: 0 <= k < |items| ==> items[k] in db.media && db.media[items[k]].In?)
    && (forall i, j :: 0 <= i < j < |items| ==> db.media[items[i]].ordinal < db.media[items[j]].ordinal)
  }

  lemma {:induction false} ByOrdinalListsAll(db: Db, ids: set<nat>, m: nat)
    requires forall i :: i in ids ==> i in db.media && db.media[i].In?
    requires m in ids
    ensures m in ByOrdinal(db, ids)
  {
    var first := First(db, ids);
    if m != first {
      ByOrdinalListsAll(db, ids - {first}, m);
    }
  }

  /** The media of one game come in strictly rising order, because their ordinals differ. */
  lemma {:induction false} ByOrdinalRises(db: Db, game: nat, ids: set<nat>)
    requires UniqueOrdinals(db) && forall i :: i in ids ==> Owned(db, i, game)
    requires forall i :: i in ids ==> i in db.media && db.media[i].In?
    ensures Rising(db, ByOrdinal(db, ids))
  {
    if ids != {} {
      var first := First(db, ids);
      var rest := ByOrdinal(db, ids - {first});
      ByOrdinalRises(db, game, ids - {first});
      forall j | 0 <= j < |rest|
        ensures db.media[first].ordinal < db.media[rest[j]].ordinal
      {
        assert rest[j] in ids - {first};
      }
      assert ByOrdinal(db, ids) == [first] + rest;
    }
  }

  ghost function MediaList(db: Db, game: nat): seq<nat> {
    ByOrdinal(db, MediaOf(db, game))
  }

  lemma MediaListIs(db: Db, game: nat)
    requires UniqueOrdinals(db)
    ensures Rising(db, MediaList(db, game))
    ensures forall m :: m in MediaList(db, game) <==> Owned(db, m, game)
  {
    ByOrdinalRises(db, game, MediaOf(db, game));
    forall m ensures m in MediaList(db, game) <==> Owned(db, m, game) {
      if Owned(db, m, game) { ByOrdinalListsAll(db, MediaOf(db, game), m); }
    }
  }

  lemma RisingDistinct(db: Db, items: seq<nat>)
    requires Rising(db, items)
    ensures forall i, j :: 0 <= i < j < |items| ==> items[i] != items[j]
  {
  }

  // ---- what single updates keep ----

  predicate NoProfilesOn(db: Db, m: nat) {
    forall p :: p in db.profiles ==> db.profiles[p].media != m
  }

  /** Nobody but the row itself is at this place. */
  predicate VacantFor(db: Db, m: nat, game: nat, ordinal: nat) {
    forall n :: n in db.media && n != m ==> db.media[n] != In(game, ordinal)
  }

  /** A row that no launch profile names may move to a vacant place of an existing game. */
  lemma MoveKeeps(db: Db, m: nat, target: nat, ordinal: nat)
    requires Constraints(db) && m in db.media && NoProfilesOn(db, m)
    requires target in db.games && VacantFor(db, m, target, ordinal)
    ensures Constraints(WithPlace(db, m, target, ordinal))
  {
    hide UniqueRa, OneAnchorEach;
    var after := WithPlace(db, m, target, ordinal);
    assert UniqueRa(after) by { SameGames(db, after); }
    assert OneAnchorEach(after) by { SameProfiles(db, after); }
  }

  lemma SameGames(db: Db, after: Db)
    requires after.games == db.games
    ensures UniqueRa(after) <==> UniqueRa(db)
  {
  }

  lemma SameProfiles(db: Db, after: Db)
    requires after.profiles == db.profiles
    ensures OneAnchorEach(after) <==> OneAnchorEach(db)
  {
  }

  lemma WithoutProfilesKeeps(db: Db, game: nat)
    requires Constraints(db)
    ensures Constraints(WithoutProfiles(db, game))
    ensures forall m :: Owned(db, m, game) ==> NoProfilesOn(WithoutProfiles(db, game), m)
  {
  }

  lemma DropGameKeeps(db: Db, game: nat)
    requires Constraints(db) && MediaOf(db, game) == {} && SlotsOf(db, game) == {}
    ensures Constraints(db.(games := db.games - {game}))
  {
    var after := db.(games := db.games - {game});
    forall m | m in after.media && after.media[m].In?
      ensures after.media[m].game in after.games
    {
      assert m !in MediaOf(db, game);
    }
    forall p | p in after.profiles
      ensures p.game in after.games
    {
      assert p !in SlotsOf(db, game);
    }
  }

  /** An id nobody else holds may be given to a game. */
  lemma IdentifyKeepsExactly(db: Db, game: nat, ra: nat)
    requires Constraints(db) && game in db.games && ra != 0
    ensures Constraints(WithGame(db, game, ra, IDENTIFIED)) <==>
      forall h :: h in db.games && h != game ==> db.games[h].ra != ra
  {
    var after := WithGame(db, game, ra, IDENTIFIED);
    assert forall h :: h in db.games ==> h in after.games;
    if h :| h in db.games && h != game && db.games[h].ra == ra {
      assert after.games[h].ra == after.games[game].ra == ra;
      assert !UniqueRa(after);
    }
  }
}
