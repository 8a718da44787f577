/**
 * ApplyLibrarySync: every bank is identified from the hash list, and then every game from its anchor bank,
 * one row at a time after all RA ids were cleared.
 */
module LibrarySync {
  import opened LibraryTables
  import opened LibraryMerge

  // ---- the payload ----

  /** hash 0 stands for a string that is not an MD5. */
  datatype Match = Match(hash: nat, ra: nat)

  datatype Title = Title(ra: nat, empty: bool)

  /** user 0 stands for the empty name. */
  datatype Payload = Payload(user: nat, hashes: seq<Match>, titles: seq<Title>, progress: seq<Progress>)

  /** hash_map, unless an entry is invalid or comes twice. */
  function HashMap(hashes: seq<Match>, found: map<nat, nat>): Option<map<nat, nat>>
    decreases |hashes|
  {
    if hashes == [] then Just(found)
    else if hashes[0].hash == 0 || hashes[0].ra == 0 || hashes[0].hash in found then Nil
    else HashMap(hashes[1..], found[hashes[0].hash := hashes[0].ra])
  }

  /** The keys of title_map, unless an entry is invalid or comes twice. */
  function TitleIds(titles: seq<Title>, found: set<nat>): Option<set<nat>>
    decreases |titles|
  {
    if titles == [] then Just(found)
    else if titles[0].ra == 0 || titles[0].empty || titles[0].ra in found then Nil
    else TitleIds(titles[1..], found + {titles[0].ra})
  }

  predicate ValidProgress(item: Progress) {
    item.ra != 0 && item.coreUnlocked <= item.coreTotal && item.hardcoreUnlocked <= item.coreTotal
  }

  /** progress_ids, unless an entry is invalid or comes twice. */
  function ProgressIds(items: seq<Progress>, found: set<nat>): Option<set<nat>>
    decreases |items|
  {
    if items == [] then Just(found)
    else if !ValidProgress(items[0]) || items[0].ra in found then Nil
    else ProgressIds(items[1..], found + {items[0].ra})
  }

  // ---- banks ----

  function SyncedBank(bank: Bank, matches: map<nat, nat>): Bank {
    var ra := if bank.hash in matches then matches[bank.hash] else 0;
    bank.(ra := ra, state := if bank.hash == 0 then UNIDENTIFIED else if ra != 0 then IDENTIFIED else UNREGISTERED)
  }

  function SyncedBanks(db: Db, matches: map<nat, nat>): Db {
    db.(banks := map k | k in db.banks :: SyncedBank(db.banks[k], matches))
  }

  // ---- games ----

  /** The bank a game's anchor profile names, if it has one. */
  ghost predicate Anchors(db: Db, game: nat, key: BankKey) {
    exists p :: p in db.profiles && p.game == game && db.profiles[p].anchor &&
      key == BankKey(db.profiles[p].media, db.profiles[p].index) && key in db.banks
  }

  ghost function AnchorBank(db: Db, game: nat): Bank {
    if exists key :: Anchors(db, game, key) then
      var key :| Anchors(db, game, key);
      db.banks[key]
    else Bank(0, 0, UNIDENTIFIED)
  }

  /** The id a game claims: its anchor's, when its media have no other. */
  ghost function Claim(db: Db, game: nat): nat {
    if |RaIdsOf(db, game)| == 1 then AnchorBank(db, game).ra else 0
  }

  /** game_id_counts. */
  ghost function Claimants(db: Db, ra: nat): set<nat> {
    set g | g in db.games && Claim(db, g) == ra
  }

  ghost predicate InConflict(db: Db, game: nat) {
    var ra := AnchorBank(db, game).ra;
    |RaIdsOf(db, game)| > 1 || (ra != 0 && |Claimants(db, ra)| > 1)
  }

  ghost function Verdict(db: Db, game: nat): nat {
    if InConflict(db, game) then CONFLICT
    else if AnchorBank(db, game).state == 0 then UNIDENTIFIED
    else if AnchorBank(db, game).ra == 0 then UNREGISTERED
    else IDENTIFIED
  }

  function Cleared(db: Db): Db {
    db.(games := map g | g in db.games :: db.games[g].(ra := 0))
  }

  /** One row of the last loop. read is the database the verdicts were read from; titles must have the id. */
  ghost function UpdateGame(read: Db, db: Db, game: nat, titles: set<nat>): Option<Db> {
    if game !in db.games then Nil
    else
      var verdict := Verdict(read, game);
      if verdict == IDENTIFIED then
        if AnchorBank(read, game).ra !in titles then Nil
        else Checked(WithGame(db, game, AnchorBank(read, game).ra, IDENTIFIED))
      else Checked(WithGame(db, game, db.games[game].ra, verdict))
  }

  ghost function UpdateGames(read: Db, db: Db, games: seq<nat>, titles: set<nat>): Option<Db>
    decreases |games|
  {
    if games == [] then Just(db)
    else match UpdateGame(read, db, games[0], titles)
      case Nil => Nil
      case Just(next) => UpdateGames(read, next, games[1..], titles)
  }

  /** DELETE FROM progress WHERE username = ?. */
  function WithoutProgress(db: Db, user: nat): Db {
    db.(progress := map k | k in db.progress && k.user != user :: db.progress[k])
  }

  /** INSERT INTO progress ... for every entry; a row already there makes it fail. */
  function InsertProgress(db: Db, user: nat, items: seq<Progress>): Option<Db>
    decreases |items|
  {
    if items == [] then Just(db)
    else
      var key := ProgressKey(user, items[0].ra);
      if key in db.progress then Nil
      else InsertProgress(db.(progress := db.progress[key := items[0]]), user, items[1..])
  }

  /** The transaction, once the payload was found valid. */
  ghost function SyncTables(db: Db, payload: Payload, matches: map<nat, nat>, titles: set<nat>): Option<Db> {
    var read := SyncedBanks(db, matches);
    match UpdateGames(read, Cleared(read), Ascending(read.games.Keys), titles)
    case Nil => Nil
    case Just(settled) => InsertProgress(WithoutProgress(settled, payload.user), payload.user, payload.progress)
  }

  /** The new database, and whether the sync was committed. */
  ghost function Sync(db: Db, payload: Payload): (Db, bool) {
    if payload.user == 0 then (db, false)
    else
      match HashMap(payload.hashes, map[])
      case Nil => (db, false)
      case Just(matches) =>
        match TitleIds(payload.titles, {})
        case Nil => (db, false)
        case Just(titles) =>
          if !(matches.Values <= titles) || ProgressIds(payload.progress, {}).Nil? then (db, false)
          else match SyncTables(db, payload, matches, titles)
            case Nil => (db, false)
            case Just(after) => (after, true)
  }

  // ---- what the reads mean ----

  lemma SyncedKeeps(db: Db, matches: map<nat, nat>)
    requires Constraints(db)
    ensures Constraints(SyncedBanks(db, matches)) && Constraints(Cleared(SyncedBanks(db, matches)))
  {
  }

  /** A bank is identified exactly when it has an id, and the id is one of the matches. */
  lemma SyncedBankStates(db: Db, matches: map<nat, nat>, k: BankKey)
    requires k in db.banks && forall h :: h in matches ==> h != 0 && matches[h] != 0
    ensures var bank := SyncedBanks(db, matches).banks[k];
      && (bank.ra != 0 <==> bank.state == IDENTIFIED)
      && (bank.ra != 0 ==> bank.ra in matches.Values)
      && (bank.state == UNIDENTIFIED <==> bank.hash == 0)
  {
  }

  lemma {:induction false} HashMapIsValid(hashes: seq<Match>, found: map<nat, nat>)
    requires forall h :: h in found ==> h != 0 && found[h] != 0
    requires HashMap(hashes, found).Just?
    ensures forall h :: h in HashMap(hashes, found).value ==> h != 0 && HashMap(hashes, found).value[h] != 0
    decreases |hashes|
  {
    if hashes != [] {
      HashMapIsValid(hashes[1..], found[hashes[0].hash := hashes[0].ra]);
    }
  }

  /** An anchor's id is among the ids of the game's own media. */
  lemma AnchorIdIsOwn(db: Db, game: nat)
    requires Constraints(db) && AnchorBank(db, game).ra != 0
    ensures AnchorBank(db, game).ra in RaIdsOf(db, game)
  {
    var key :| Anchors(db, game, key) && db.banks[key] == AnchorBank(db, game);
    assert key in BanksOfGame(db, game);
  }

  lemma AnchorBankIsABank(db: Db, game: nat)
    ensures AnchorBank(db, game) == Bank(0, 0, UNIDENTIFIED) ||
      exists k :: k in db.banks && db.banks[k] == AnchorBank(db, game)
  {
  }

  /** A game found identified claims its id, and nobody else does. */
  lemma IdentifiedClaimsAlone(db: Db, game: nat)
    requires Constraints(db) && game in db.games && Verdict(db, game) == IDENTIFIED
    ensures AnchorBank(db, game).ra != 0 && Claim(db, game) == AnchorBank(db, game).ra
    ensures forall h :: h in db.games && Claim(db, h) == Claim(db, game) ==> h == game
  {
    hide Constraints, RaIdsOf;
    var ra := AnchorBank(db, game).ra;
    AnchorIdIsOwn(db, game);
    assert |RaIdsOf(db, game)| != 0;
    forall h | h in db.games && Claim(db, h) == ra
      ensures h == game
    {
      if h != game {
        assert {game, h} <= Claimants(db, ra);
        PairHasTwo(game, h, Claimants(db, ra));
      }
    }
  }

  lemma PairHasTwo(a: nat, b: nat, s: set<nat>)
    requires a != b && {a, b} <= s
    ensures |s| >= 2
  {
    assert |s - {a, b}| == |s| - 2;
  }

  // ---- the last loop ----

  /** The row of a game once its verdict is written. */
  ghost function Settled(read: Db, game: nat): Game {
    Game(if Verdict(read, game) == IDENTIFIED then AnchorBank(read, game).ra else 0, Verdict(read, game))
  }

  /** The games still to come have no id; the others are settled. */
  ghost predicate Halfway(read: Db, db: Db, games: seq<nat>) {
    && db == read.(games := db.games) && db.games.Keys == read.games.Keys
    && (forall g :: g in db.games && g in games ==> db.games[g].ra == 0)
    && (forall g :: g in db.games && g !in games ==> db.games[g] == Settled(read, g))
  }

  /** Every id that a verdict gives out has a title. */
  ghost predicate Titled(read: Db, titles: set<nat>) {
    forall g :: g in read.games && Verdict(read, g) == IDENTIFIED ==> AnchorBank(read, g).ra in titles
  }

  lemma SettledKeeps(read: Db, db: Db, games: seq<nat>, ra: nat)
    requires Constraints(read) && Constraints(db) && Halfway(read, db, games) && games != [] && games[0] in db.games
    requires Verdict(read, games[0]) == IDENTIFIED ==> ra == AnchorBank(read, games[0]).ra
    requires Verdict(read, games[0]) != IDENTIFIED ==> ra == 0
    ensures Constraints(WithGame(db, games[0], ra, Verdict(read, games[0])))
  {
    hide Claim, AnchorBank, RaIdsOf, Verdict;
    var game := games[0];
    var after := WithGame(db, game, ra, Verdict(read, game));
    forall h | h in db.games && h != game && db.games[h].ra != 0
      ensures db.games[h].ra != ra
    {
      assert h !in games ==> db.games[h] == Settled(read, h);
      IdentifiedOrClear(read, db, games, h);
      if ra != 0 {
        IdentifiedClaimsAlone(read, game);
        IdentifiedClaimsAlone(read, h);
      }
    }
    assert UniqueRa(after);
  }

  lemma IdentifiedOrClear(read: Db, db: Db, games: seq<nat>, h: nat)
    requires Halfway(read, db, games) && h in db.games && db.games[h].ra != 0
    ensures Verdict(read, h) == IDENTIFIED && db.games[h].ra == AnchorBank(read, h).ra
  {
    hide AnchorBank, Verdict;
    assert h !in games;
    assert db.games[h] == Settled(read, h);
  }

  /** No row update of the last loop breaks the uniqueness of RA ids, and no title is missing. */
  lemma {:induction false} UpdateGamesSucceeds(read: Db, db: Db, games: seq<nat>, titles: set<nat>)
    requires Constraints(read) && Constraints(db) && Halfway(read, db, games) && Titled(read, titles)
    requires forall k :: 0 <= k < |games| ==> games[k] in db.games
    requires forall i, j :: 0 <= i < j < |games| ==> games[i] != games[j]
    ensures UpdateGames(read, db, games, titles).Just?
    ensures var after := UpdateGames(read, db, games, titles).value;
      Constraints(after) && Halfway(read, after, [])
    decreases |games|
  {
    hide Constraints, Verdict, AnchorBank, Halfway;
    if games != [] {
      var game := games[0];
      var ra := if Verdict(read, game) == IDENTIFIED then AnchorBank(read, game).ra else 0;
      SettledKeeps(read, db, games, ra);
      UnsettledIsClear(read, db, games);
      var next := WithGame(db, game, ra, Verdict(read, game));
      assert UpdateGame(read, db, game, titles) == Just(next);
      assert forall k :: 0 <= k < |games[1..]| ==> games[1..][k] == games[k + 1];
      HalfwayStep(read, db, games, ra);
      UpdateGamesSucceeds(read, next, games[1..], titles);
    }
  }

  lemma UnsettledIsClear(read: Db, db: Db, games: seq<nat>)
    requires Halfway(read, db, games) && games != [] && games[0] in db.games
    ensures db.games[games[0]].ra == 0 && games[0] in read.games
  {
  }

  lemma HalfwayStep(read: Db, db: Db, games: seq<nat>, ra: nat)
    requires Halfway(read, db, games) && games != [] && games[0] in db.games && games[0] !in games[1..]
    requires ra == if Verdict(read, games[0]) == IDENTIFIED then AnchorBank(read, games[0]).ra else 0
    ensures Halfway(read, WithGame(db, games[0], ra, Verdict(read, games[0])), games[1..])
  {
    hide Verdict, AnchorBank;
    assert games == [games[0]] + games[1..];
    var next := WithGame(db, games[0], ra, Verdict(read, games[0]));
    assert next.games.Keys == read.games.Keys;
  }

  // ---- progress ----

  lemma {:induction false} ProgressIdsDiffer(items: seq<Progress>, found: set<nat>)
    requires ProgressIds(items, found).Just?
    ensures forall k :: 0 <= k < |items| ==> items[k].ra !in found
    ensures forall i, j :: 0 <= i < j < |items| ==> items[i].ra != items[j].ra
    decreases |items|
  {
    if items != [] {
      ProgressIdsDiffer(items[1..], found + {items[0].ra});
      assert forall k :: 1 <= k < |items| ==> items[k] == items[1..][k - 1];
    }
  }

  /** The user's rows are exactly these, and everybody else's are as they were. */
  ghost predicate HasProgress(db: Db, after: Db, user: nat, items: seq<Progress>) {
    && after == db.(progress := after.progress)
    && (forall k: ProgressKey :: k.user != user ==>
          (k in after.progress <==> k in db.progress) && (k in db.progress ==> after.progress[k] == db.progress[k]))
    && (forall k :: k in after.progress && k.user == user ==> exists i :: 0 <= i < |items| && items[i].ra == k.ra)
    && (forall i :: 0 <= i < |items| ==>
          ProgressKey(user, items[i].ra) in after.progress && after.progress[ProgressKey(user, items[i].ra)] == items[i])
  }

  /** Inserting entries of different games for whom nothing is stored never meets a row. */
  lemma {:induction false} InsertProgressSucceeds(db: Db, user: nat, items: seq<Progress>)
    requires forall k :: 0 <= k < |items| ==> ProgressKey(user, items[k].ra) !in db.progress
    requires forall i, j :: 0 <= i < j < |items| ==> items[i].ra != items[j].ra
    ensures InsertProgress(db, user, items).Just?
    ensures var after := InsertProgress(db, user, items).value;
      && after == db.(progress := after.progress)
      && (forall k :: k in after.progress <==>
            k in db.progress || (k.user == user && exists i :: 0 <= i < |items| && items[i].ra == k.ra))
      && (forall k :: k in db.progress ==> after.progress[k] == db.progress[k])
      && (forall i :: 0 <= i < |items| ==> after.progress[ProgressKey(user, items[i].ra)] == items[i])
    decreases |items|
  {
    if items != [] {
      var key, rest := ProgressKey(user, items[0].ra), items[1..];
      var step := db.(progress := db.progress[key := items[0]]);
      assert forall k :: 0 <= k < |rest| ==> rest[k] == items[k + 1];
      InsertProgressSucceeds(step, user, rest);
      var after := InsertProgress(db, user, items).value;
      forall k: ProgressKey ensures k in after.progress <==>
        k in db.progress || (k.user == user && exists i :: 0 <= i < |items| && items[i].ra == k.ra)
      {
        ProgressKeyOfRest(items, k);
      }
      forall i | 0 <= i < |items|
        ensures after.progress[ProgressKey(user, items[i].ra)] == items[i]
      {
        if i > 0 { assert items[i] == rest[i - 1]; }
      }
    }
  }

  lemma ProgressKeyOfRest(items: seq<Progress>, k: ProgressKey)
    requires items != []
    ensures (exists i :: 0 <= i < |items| && items[i].ra == k.ra) <==>
      items[0].ra == k.ra || exists i :: 0 <= i < |items[1..]| && items[1..][i].ra == k.ra
  {
    if i :| 0 <= i < |items| && items[i].ra == k.ra {
      assert i > 0 ==> items[1..][i - 1] == items[i];
    }
  }

  lemma ReplacesProgress(db: Db, user: nat, items: seq<Progress>)
    requires ProgressIds(items, {}).Just?
    ensures InsertProgress(WithoutProgress(db, user), user, items).Just?
    ensures HasProgress(db, InsertProgress(WithoutProgress(db, user), user, items).value, user, items)
  {
    ProgressIdsDiffer(items, {});
    InsertProgressSucceeds(WithoutProgress(db, user), user, items);
  }

  // ---- the sync as a whole ----

  ghost predicate PayloadIsGood(payload: Payload) {
    && payload.user != 0 && HashMap(payload.hashes, map[]).Just? && TitleIds(payload.titles, {}).Just?
    && HashMap(payload.hashes, map[]).value.Values <= TitleIds(payload.titles, {}).value
    && ProgressIds(payload.progress, {}).Just?
  }

  lemma TitlesCover(db: Db, matches: map<nat, nat>, titles: set<nat>)
    requires Constraints(db) && matches.Values <= titles && forall h :: h in matches ==> h != 0 && matches[h] != 0
    ensures Titled(SyncedBanks(db, matches), titles)
  {
    hide Constraints, InConflict;
    var read := SyncedBanks(db, matches);
    forall g | g in read.games && Verdict(read, g) == IDENTIFIED
      ensures AnchorBank(read, g).ra in titles
    {
      AnchorBankIsABank(read, g);
      var k :| k in read.banks && read.banks[k] == AnchorBank(read, g);
      SyncedBankStates(db, matches, k);
    }
  }

  /** What a sync leaves. */
  ghost predicate Synced(db: Db, read: Db, after: Db, payload: Payload) {
    && after.media == db.media && after.profiles == db.profiles && after.banks == read.banks
    && after.games.Keys == db.games.Keys && (forall g :: g in after.games ==> after.games[g] == Settled(read, g))
    && HasProgress(db.(games := after.games, banks := after.banks), after, payload.user, payload.progress)
  }

  /**
   * A sync commits exactly when its payload is well formed and complete: no update on the way can break a
   * constraint or miss a title. Every game then has its verdict, identified games have distinct ids, and the
   * user's progress is what the payload says.
   */
  lemma SyncExactly(db: Db, payload: Payload)
    requires Constraints(db)
    ensures Sync(db, payload).1 <==> PayloadIsGood(payload)
    ensures !Sync(db, payload).1 ==> Sync(db, payload).0 == db
    ensures Sync(db, payload).1 ==>
      && Constraints(Sync(db, payload).0)
      && Synced(db, SyncedBanks(db, HashMap(payload.hashes, map[]).value), Sync(db, payload).0, payload)
  {
    hide Constraints, HashMap, TitleIds, SyncTables, SyncedBanks, Synced, ProgressIds;
    if PayloadIsGood(payload) {
      HashMapIsValid(payload.hashes, map[]);
      SyncTablesSucceeds(db, payload, HashMap(payload.hashes, map[]).value, TitleIds(payload.titles, {}).value);
    }
  }

  lemma SyncTablesSucceeds(db: Db, payload: Payload, matches: map<nat, nat>, titles: set<nat>)
    requires Constraints(db) && matches.Values <= titles && ProgressIds(payload.progress, {}).Just?
    requires forall h :: h in matches ==> h != 0 && matches[h] != 0
    ensures SyncTables(db, payload, matches, titles).Just?
    ensures var after := SyncTables(db, payload, matches, titles).value;
      Constraints(after) && Synced(db, SyncedBanks(db, matches), after, payload)
  {
    hide Constraints, UpdateGames, Settled, SyncedBanks, Cleared, Titled, ProgressIds, HasProgress, InsertProgress,
      WithoutProgress, Synced;
    var read := SyncedBanks(db, matches);
    SyncedKeeps(db, matches);
    TitlesCover(db, matches, titles);
    SyncStarts(db, matches);
    UpdateGamesSucceeds(read, Cleared(read), Ascending(read.games.Keys), titles);
    var settled := UpdateGames(read, Cleared(read), Ascending(read.games.Keys), titles).value;
    AllSettled(db, matches, settled);
    ReplacesProgress(settled, payload.user, payload.progress);
    SyncedOf(db, read, settled, SyncTables(db, payload, matches, titles).value, payload);
  }

  lemma SyncedOf(db: Db, read: Db, settled: Db, after: Db, payload: Payload)
    requires Constraints(settled) && HasProgress(settled, after, payload.user, payload.progress)
    requires settled == db.(games := settled.games, banks := read.banks) && settled.games.Keys == db.games.Keys
    requires forall g :: g in settled.games ==> settled.games[g] == Settled(read, g)
    ensures Constraints(after) && Synced(db, read, after, payload)
  {
    hide Settled;
    assert settled == db.(games := after.games, banks := after.banks);
    assert Constraints(after);
  }

  lemma SyncStarts(db: Db, matches: map<nat, nat>)
    ensures var read := SyncedBanks(db, matches);
      && Halfway(read, Cleared(read), Ascending(read.games.Keys))
      && forall k :: 0 <= k < |Ascending(read.games.Keys)| ==> Ascending(read.games.Keys)[k] in Cleared(read).games
  {
    hide SyncedBanks, Settled;
    ClearedStarts(SyncedBanks(db, matches), Ascending(SyncedBanks(db, matches).games.Keys));
  }

  lemma ClearedStarts(read: Db, games: seq<nat>)
    requires forall g :: g in read.games ==> g in games
    ensures Halfway(read, Cleared(read), games) && Cleared(read).games.Keys == read.games.Keys
  {
    hide Settled;
    assert Cleared(read).games.Keys == read.games.Keys;
  }

  lemma AllSettled(db: Db, matches: map<nat, nat>, after: Db)
    requires Halfway(SyncedBanks(db, matches), after, [])
    ensures var read := SyncedBanks(db, matches);
      && after == db.(games := after.games, banks := read.banks) && after.games.Keys == db.games.Keys
      && forall g :: g in after.games ==> after.games[g] == Settled(read, g)
  {
    hide Settled;
  }

  /** Two games that claim one id are both in conflict after a sync, and neither holds the id. */
  lemma RivalsConflict(db: Db, payload: Payload, g: nat, h: nat)
    requires Constraints(db) && PayloadIsGood(payload) && g in db.games && h in db.games && g != h
    requires var read := SyncedBanks(db, HashMap(payload.hashes, map[]).value);
      Claim(read, g) == Claim(read, h) != 0
    ensures var after := Sync(db, payload).0;
      g in after.games && after.games[g] == Game(0, CONFLICT) && h in after.games && after.games[h] == Game(0, CONFLICT)
  {
    hide Constraints, Sync, AnchorBank, RaIdsOf, HashMap, TitleIds;
    var read := SyncedBanks(db, HashMap(payload.hashes, map[]).value);
    SyncExactly(db, payload);
    var ra := Claim(read, g);
    assert {g, h} <= Claimants(read, ra);
    PairHasTwo(g, h, Claimants(read, ra));
    assert InConflict(read, g) && InConflict(read, h);
  }
}
