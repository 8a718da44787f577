/**
 * The library as the program has it: one object over the tables, whose transactions update them row by row
 * and put back the saved tables when a statement fails. Each method is proved against its function.
 */
module LibraryStore {
  import opened Extremes
  import opened LibraryTables
  import opened LibraryMerge
  import opened LibrarySplit
  import opened LibraryResolve
  import opened LibrarySync

  /** What a transaction function says, as the tables afterwards and whether it was committed. */
  function Outcome(before: Db, result: Option<Db>): (Db, bool) {
    if result.Just? then (result.value, true) else (before, false)
  }

  class Library {
    var db: Db

    constructor ()
      ensures Constraints(db) && db == Db(map[], map[], map[], map[], map[])
    {
      db := Db(map[], map[], map[], map[], map[]);
    }

    /** One statement: it takes effect only if the constraints hold afterwards. */
    method Execute(next: Db) returns (ok: bool)
      modifies this
      ensures Checked(next) == if ok then Just(db) else Nil
      ensures !ok ==> db == old(db)
    {
      ok := Constraints(next);
      if ok {
        db := next;
      }
    }

    // ---- SELECT ... ORDER BY ordinal ----

    method FindFirst(ids: set<nat>, ghost game: nat) returns (m: nat)
      requires UniqueOrdinals(db) && ids != {} && forall i :: i in ids ==> Owned(db, i, game)
      requires forall i :: i in ids ==> i in db.media && db.media[i].In?
      ensures m == First(db, ids)
    {
      var todo := ids;
      m :| m in todo;
      while todo != {}
        invariant m in ids && todo <= ids
        invariant forall i :: i in ids ==> i in todo || db.media[m].ordinal <= db.media[i].ordinal
        decreases |todo|
      {
        var i :| i in todo;
        if db.media[i].ordinal < db.media[m].ordinal {
          m := i;
        }
        todo := todo - {i};
      }
    }

    method SelectMedia(ids: set<nat>, ghost game: nat) returns (items: seq<nat>)
      requires UniqueOrdinals(db) && forall i :: i in ids ==> Owned(db, i, game)
      requires forall i :: i in ids ==> i in db.media && db.media[i].In?
      ensures items == ByOrdinal(db, ids)
    {
      var todo := ids;
      items := [];
      while todo != {}
        invariant todo <= ids
        invariant ByOrdinal(db, ids) == items + ByOrdinal(db, todo)
        decreases |todo|
      {
        var m := FindFirst(todo, game);
        items := items + [m];
        todo := todo - {m};
      }
    }

    static method Sort(ids: set<nat>) returns (items: seq<nat>)
      ensures items == Ascending(ids)
    {
      hide Ascending;
      AscendingNothing();
      var todo := ids;
      items := [];
      while todo != {}
        invariant Ascending(ids) == items + Ascending(todo)
        decreases |todo|
      {
        var id := FindLowest(todo);
        AscendingStep(todo);
        Regroup(items, id, Ascending(todo - {id}));
        items := items + [id];
        todo := todo - {id};
      }
    }

    method FindNextOrdinal(game: nat) returns (next: nat)
      ensures next == NextOrdinal(db, game)
    {
      var ordinals := set m | m in db.media && Owned(db, m, game) :: db.media[m].ordinal;
      if ordinals == {} {
        return 0;
      }
      var top := FindHighest(ordinals);
      return top + 1;
    }

    // ---- pouring one game into another ----

    method MoveMedia(items: seq<nat>, source: nat, target: nat, first: nat) returns (ok: bool)
      modifies this
      ensures MoveAll(old(db), items, source, target, first) == if ok then Just(db) else Nil
    {
      hide Constraints;
      var index := 0;
      while index < |items|
        invariant 0 <= index <= |items|
        invariant MoveAll(old(db), items, source, target, first) ==
          MoveAll(db, items[index..], source, target, first + index)
      {
        assert items[index..][0] == items[index] && items[index..][1..] == items[index + 1..];
        if !Owned(db, items[index], source) {
          return false;
        }
        ok := Execute(WithPlace(db, items[index], target, first + index));
        if !ok {
          return false;
        }
        index := index + 1;
      }
      return true;
    }

    method PourGame(source: nat, target: nat, next: nat) returns (ok: bool, moved: nat)
      requires UniqueOrdinals(db)
      modifies this
      ensures PourInto(old(db), source, target, next) == if ok then Just(db) else Nil
      ensures moved == |MediaList(old(db), source)|
    {
      hide Constraints, MoveAll;
      var items := SelectMedia(MediaOf(db, source), source);
      moved := |items|;
      db := WithoutProfiles(db, source);
      ok := MoveMedia(items, source, target, next);
      if ok {
        ok := source in db.games;
        if ok {
          ok := Execute(db.(games := db.games - {source}));
        }
      }
    }

    method MergeGameMedia(target: nat, source: nat) returns (ok: bool)
      requires Constraints(db)
      modifies this
      ensures (db, ok) == Outcome(old(db), LibraryMerge.MergeGameMedia(old(db), target, source))
    {
      hide Constraints, PourInto, NextOrdinal, ByOrdinal;
      ConstraintParts(db);
      if target == 0 || source == 0 || target == source || target !in db.games || source !in db.games {
        return false;
      }
      var saved := db;
      var next := FindNextOrdinal(target);
      var items := SelectMedia(MediaOf(db, source), source);
      if items == [] {
        return false;
      }
      var moved;
      ok, moved := PourGame(source, target, next);
      if !ok {
        db := saved;
      }
    }

    // ---- MERGE ----

    method MergeGames(ra: nat) returns (ok: bool)
      requires Constraints(db)
      modifies this
      ensures Merge(old(db), ra) == if ok then Just(db) else Nil
    {
      hide Constraints, MergeSet, NextOrdinal, PourInto, ByOrdinal, WithGame;
      var games := MergeSet(db, ra);
      if |games| < 2 {
        return false;
      }
      var target := FindLowest(games);
      var sources := Sort(games - {target});
      var next := FindNextOrdinal(target);
      ok := MergeSources(sources, target, next);
      if !ok || target !in db.games {
        return false;
      }
      ok := Execute(WithGame(db, target, ra, IDENTIFIED));
    }

    method MergeSources(sources: seq<nat>, target: nat, first: nat) returns (ok: bool)
      requires Constraints(db)
      modifies this
      ensures MergeAll(old(db), sources, target, first) == if ok then Just(db) else Nil
    {
      hide Constraints, PourInto, MediaList;
      var next := first;
      var index := 0;
      while index < |sources|
        invariant 0 <= index <= |sources| && Constraints(db)
        invariant MergeAll(old(db), sources, target, first) == MergeAll(db, sources[index..], target, next)
      {
        assert sources[index..][0] == sources[index] && sources[index..][1..] == sources[index + 1..];
        ConstraintParts(db);
        ghost var before := db;
        var moved;
        ok, moved := PourGame(sources[index], target, next);
        if !ok {
          return false;
        }
        PourIsChecked(before, db, sources[index], target, next);
        next := next + moved;
        index := index + 1;
      }
      return true;
    }

    // ---- SPLIT ----

    method FindRa(m: nat) returns (ra: nat)
      ensures ra == RaOf(db, m)
    {
      var ids := RaIdsOfMedia(db, m);
      if ids == {} {
        return 0;
      }
      ra := FindLowest(ids);
    }

    method FindFirstBank(m: nat) returns (index: nat)
      ensures index == FirstBank(db, m)
    {
      var indexes := BankIndexes(db, m);
      if indexes == {} {
        return 0;
      }
      index := FindLowest(indexes);
    }

    method FindAnchor(game: nat) returns (found: bool, anchor: Profile)
      requires OneAnchorEach(db)
      ensures found <==> HasAnchor(db, game)
      ensures found ==> anchor == AnchorOf(db, game)
    {
      var todo := db.profiles.Keys;
      anchor := Profile(0, 0, false);
      while todo != {}
        invariant todo <= db.profiles.Keys
        invariant forall p :: p in db.profiles && p.game == game && db.profiles[p].anchor ==> p in todo
        decreases |todo|
      {
        var p :| p in todo;
        if p.game == game && db.profiles[p].anchor {
          return true, db.profiles[p];
        }
        todo := todo - {p};
      }
      return false, anchor;
    }

    method CreateGames(items: seq<nat>, start: map<nat, nat>) returns (ok: bool, dest: map<nat, nat>)
      modifies this
      ensures MakeGames(old(db), items, start) == if ok then Just((db, dest)) else Nil
    {
      hide Constraints, RaOf, WithGame;
      dest := start;
      var index := 0;
      while index < |items|
        invariant 0 <= index <= |items|
        invariant MakeGames(old(db), items, start) == MakeGames(db, items[index..], dest)
      {
        assert items[index..][0] == items[index] && items[index..][1..] == items[index + 1..];
        var ra := FindRa(items[index]);
        if ra !in dest {
          var top := FindHighest(db.games.Keys);
          ok := Execute(WithGame(db, top + 1, ra, IDENTIFIED));
          if !ok {
            return false, dest;
          }
          dest := dest[ra := top + 1];
        }
        index := index + 1;
      }
      return true, dest;
    }

    method DistributeMedia(game: nat, items: seq<nat>, dest: map<nat, nat>) returns (ok: bool)
      modifies this
      ensures Distribute(old(db), game, items, dest, map[]) == if ok then Just(db) else Nil
    {
      hide Constraints, RaOf;
      var counts: map<nat, nat> := map[];
      var index := 0;
      while index < |items|
        invariant 0 <= index <= |items|
        invariant Distribute(old(db), game, items, dest, map[]) == Distribute(db, game, items[index..], dest, counts)
      {
        assert items[index..][0] == items[index] && items[index..][1..] == items[index + 1..];
        var ra := FindRa(items[index]);
        if ra !in dest || !Owned(db, items[index], game) {
          return false;
        }
        var count := if ra in counts then counts[ra] else 0;
        ok := Execute(WithPlace(db, items[index], dest[ra], count));
        if !ok {
          return false;
        }
        counts := counts[ra := count + 1];
        index := index + 1;
      }
      return true;
    }

    method FindStart(items: seq<nat>, id: nat) returns (m: nat)
      ensures m == StartOf(db, items, id)
    {
      hide RaOf;
      var index := 0;
      while index < |items|
        invariant 0 <= index <= |items|
        invariant StartOf(db, items, id) == StartOf(db, items[index..], id)
      {
        assert items[index..][0] == items[index] && items[index..][1..] == items[index + 1..];
        var ra := FindRa(items[index]);
        if ra == id {
          return items[index];
        }
        index := index + 1;
      }
      return 0;
    }

    method WriteAnchors(ids: seq<nat>, dest: map<nat, nat>, items: seq<nat>, anchorId: nat, anchor: Profile)
      returns (ok: bool)
      modifies this
      ensures InsertAnchors(old(db), ids, dest, items, anchorId, anchor) == if ok then Just(db) else Nil
    {
      hide Constraints, StartOf, FirstBank;
      var index := 0;
      while index < |ids|
        invariant 0 <= index <= |ids|
        invariant InsertAnchors(old(db), ids, dest, items, anchorId, anchor) ==
          InsertAnchors(db, ids[index..], dest, items, anchorId, anchor)
      {
        assert ids[index..][0] == ids[index] && ids[index..][1..] == ids[index + 1..];
        var id := ids[index];
        if id !in dest || Slot(dest[id], 0) in db.profiles {
          return false;
        }
        var row := Profile(anchor.media, anchor.index, true);
        if id != anchorId {
          var start := FindStart(items, id);
          var bank := FindFirstBank(start);
          row := Profile(start, bank, true);
        }
        ok := Execute(db.(profiles := db.profiles[Slot(dest[id], 0) := row]));
        if !ok {
          return false;
        }
        index := index + 1;
      }
      return true;
    }

    method SplitGameMedia(game: nat) returns (ok: bool)
      requires Constraints(db)
      modifies this
      ensures Split(old(db), game) == if ok then Just(db) else Nil
    {
      hide Constraints, MakeGames, Distribute, InsertAnchors, RaOf, HasAnchor, AnchorOf, ByOrdinal, Ascending,
        WithoutProfiles, WithGame, BanksOf;
      ProfileConstraints(db);
      AnchorsAreUnique(db);
      var listed := set m | m in MediaOf(db, game) && BanksOf(db, m) != {};
      var items := SelectMedia(listed, game);
      var found, anchor := FindAnchor(game);
      if !found || anchor.media !in items {
        return false;
      }
      var anchorId := FindRa(anchor.media);
      if anchorId == 0 {
        return false;
      }
      db := WithoutProfiles(db, game);
      var dest;
      ok, dest := CreateGames(items, map[anchorId := game]);
      if !ok {
        return false;
      }
      ok := DistributeMedia(game, items, dest);
      if !ok || game !in db.games {
        return false;
      }
      ok := Execute(WithGame(db, game, anchorId, IDENTIFIED));
      if !ok {
        return false;
      }
      var ids := Sort(dest.Keys);
      ok := WriteAnchors(ids, dest, items, anchorId, anchor);
    }

    // ---- InspectGameConflict and ResolveGameConflict ----

    method InspectGameConflict(game: nat) returns (kind: Option<Kind>)
      ensures kind == Inspect(db, game)
    {
      hide RaIdsOf, MergeSet, Whole, BanksOf;
      if game !in db.games {
        return Nil;
      }
      if db.games[game].state != CONFLICT {
        return Just(NoConflict);
      }
      var ids := RaIdsOf(db, game);
      if ids == {} {
        return Just(ManualConflict);
      }
      if |ids| == 1 {
        var ra := FindLowest(ids);
        return Just(if |MergeSet(db, ra)| >= 2 then MergeConflict else ManualConflict);
      }
      var safe := forall m :: m in MediaOf(db, game) && BanksOf(db, m) != {} ==> Whole(db, m);
      return Just(if safe && !ExternalMatch(db, game) then SplitConflict else ManualConflict);
    }

    method ResolveGameConflict(game: nat) returns (ok: bool)
      requires Constraints(db)
      modifies this
      ensures (db, ok) == Resolve(old(db), game)
    {
      hide Constraints, Inspect, Merge, Split, RaIdsOf;
      var kind := InspectGameConflict(game);
      if kind != Just(MergeConflict) && kind != Just(SplitConflict) {
        return false;
      }
      var saved := db;
      if kind == Just(MergeConflict) {
        MergeConflictIsMerge(db, game);
        var ra := FindLowest(RaIdsOf(db, game));
        ok := MergeGames(ra);
      } else {
        ok := SplitGameMedia(game);
      }
      if !ok {
        db := saved;
      }
    }

    // ---- ApplyLibrarySync ----

    static method ReadHashes(hashes: seq<Match>) returns (ok: bool, matches: map<nat, nat>)
      ensures HashMap(hashes, map[]) == if ok then Just(matches) else Nil
    {
      matches := map[];
      var index := 0;
      while index < |hashes|
        invariant 0 <= index <= |hashes|
        invariant HashMap(hashes, map[]) == HashMap(hashes[index..], matches)
      {
        assert hashes[index..][1..] == hashes[index + 1..];
        var item := hashes[index];
        if item.hash == 0 || item.ra == 0 || item.hash in matches {
          return false, matches;
        }
        matches := matches[item.hash := item.ra];
        index := index + 1;
      }
      return true, matches;
    }

    static method ReadTitles(titles: seq<Title>) returns (ok: bool, ids: set<nat>)
      ensures TitleIds(titles, {}) == if ok then Just(ids) else Nil
    {
      ids := {};
      var index := 0;
      while index < |titles|
        invariant 0 <= index <= |titles|
        invariant TitleIds(titles, {}) == TitleIds(titles[index..], ids)
      {
        assert titles[index..][1..] == titles[index + 1..];
        var item := titles[index];
        if item.ra == 0 || item.empty || item.ra in ids {
          return false, ids;
        }
        ids := ids + {item.ra};
        index := index + 1;
      }
      return true, ids;
    }

    /** Every bank row in turn. */
    method UpdateBanks(matches: map<nat, nat>)
      modifies this
      ensures db == SyncedBanks(old(db), matches)
    {
      hide SyncedBank;
      var todo := db.banks.Keys;
      while todo != {}
        invariant todo <= old(db).banks.Keys && db == old(db).(banks := db.banks)
        invariant db.banks.Keys == old(db).banks.Keys
        invariant forall k :: k in old(db).banks ==>
          db.banks[k] == if k in todo then old(db).banks[k] else SyncedBank(old(db).banks[k], matches)
        decreases |todo|
      {
        var k :| k in todo;
        db := db.(banks := db.banks[k := SyncedBank(db.banks[k], matches)]);
        todo := todo - {k};
      }
      assert db.banks == SyncedBanks(old(db), matches).banks;
    }

    method FindAnchorBank(game: nat) returns (bank: Bank)
      requires OneAnchorEach(db)
      ensures bank == AnchorBank(db, game)
    {
      var todo := db.profiles.Keys;
      while todo != {}
        invariant todo <= db.profiles.Keys
        invariant forall p :: p in db.profiles && p !in todo ==>
          !(p.game == game && db.profiles[p].anchor && BankKey(db.profiles[p].media, db.profiles[p].index) in db.banks)
        decreases |todo|
      {
        var p :| p in todo;
        var key := BankKey(db.profiles[p].media, db.profiles[p].index);
        if p.game == game && db.profiles[p].anchor && key in db.banks {
          assert Anchors(db, game, key);
          return db.banks[key];
        }
        todo := todo - {p};
      }
      return Bank(0, 0, UNIDENTIFIED);
    }

    /** The first pass over the games: each anchor's bank, and how many games claim each id. */
    method CountClaims(games: seq<nat>) returns (anchors: map<nat, Bank>, counts: map<nat, nat>)
      requires OneAnchorEach(db)
      requires forall k :: 0 <= k < |games| ==> games[k] in db.games
      requires forall i, j :: 0 <= i < j < |games| ==> games[i] != games[j]
      ensures forall g :: g in games ==> g in anchors && anchors[g] == AnchorBank(db, g)
      ensures forall ra: nat :: ra != 0 ==> (if ra in counts then counts[ra] else 0) == |ClaimantsAmong(db, games, ra)|
    {
      hide AnchorBank, RaIdsOf;
      anchors, counts := map[], map[];
      var index := 0;
      forall ra: nat ensures |ClaimantsAmong(db, games[..0], ra)| == 0 {
        assert ClaimantsAmong(db, games[..0], ra) == {};
      }
      while index < |games|
        invariant 0 <= index <= |games|
        invariant forall k :: 0 <= k < index ==> games[k] in anchors && anchors[games[k]] == AnchorBank(db, games[k])
        invariant forall ra: nat :: ra != 0 ==>
          (if ra in counts then counts[ra] else 0) == |ClaimantsAmong(db, games[..index], ra)|
      {
        var game := games[index];
        var bank := FindAnchorBank(game);
        anchors := anchors[game := bank];
        OneMoreClaimant(db, games, index);
        if bank.ra != 0 && |RaIdsOf(db, game)| == 1 {
          counts := counts[bank.ra := (if bank.ra in counts then counts[bank.ra] else 0) + 1];
        }
        index := index + 1;
      }
      assert games[..index] == games;
    }

    static method CheckProgress(items: seq<Progress>) returns (ok: bool)
      ensures ok <==> ProgressIds(items, {}).Just?
    {
      var ids: set<nat> := {};
      var index := 0;
      while index < |items|
        invariant 0 <= index <= |items|
        invariant ProgressIds(items, {}) == ProgressIds(items[index..], ids)
      {
        assert items[index..][1..] == items[index + 1..];
        var item := items[index];
        if !ValidProgress(item) || item.ra in ids {
          return false;
        }
        ids := ids + {item.ra};
        index := index + 1;
      }
      return true;
    }

    /** The user's progress rows, deleted and written anew. */
    method WriteProgress(user: nat, items: seq<Progress>) returns (ok: bool)
      modifies this
      ensures InsertProgress(WithoutProgress(old(db), user), user, items) == if ok then Just(db) else Nil
    {
      db := WithoutProgress(db, user);
      var index := 0;
      while index < |items|
        invariant 0 <= index <= |items|
        invariant InsertProgress(WithoutProgress(old(db), user), user, items) == InsertProgress(db, user, items[index..])
      {
        assert items[index..][0] == items[index] && items[index..][1..] == items[index + 1..];
        var key := ProgressKey(user, items[index].ra);
        if key in db.progress {
          return false;
        }
        db := db.(progress := db.progress[key := items[index]]);
        index := index + 1;
      }
      return true;
    }

    method ApplyLibrarySync(payload: Payload) returns (ok: bool)
      requires Constraints(db)
      modifies this
      ensures (db, ok) == Sync(old(db), payload)
    {
      hide Constraints, HashMap, TitleIds, ProgressIds, SyncedBanks, UpdateGames, Ascending, WithoutProgress, InsertProgress;
      if payload.user == 0 {
        return false;
      }
      var matches, titles;
      ok, matches := ReadHashes(payload.hashes);
      if !ok {
        return false;
      }
      ok, titles := ReadTitles(payload.titles);
      if !ok || !(matches.Values <= titles) {
        return false;
      }
      ok := CheckProgress(payload.progress);
      if !ok {
        return false;
      }
      var saved := db;
      SyncedKeeps(db, matches);
      UpdateBanks(matches);
      ok := IdentifyGames(titles);
      if ok {
        ok := WriteProgress(payload.user, payload.progress);
      }
      if !ok {
        db := saved;
      }
    }

    /** The games, after every bank is identified. */
    method IdentifyGames(titles: set<nat>) returns (ok: bool)
      requires Constraints(db)
      modifies this
      ensures UpdateGames(old(db), Cleared(old(db)), Ascending(old(db).games.Keys), titles) ==
        if ok then Just(db) else Nil
    {
      hide Constraints, AnchorBank, RaIdsOf, UpdateGame, Cleared, Ascending;
      ghost var read := db;
      AnchorsAreUnique(db);
      AscendingLists(db.games.Keys);
      var games := Sort(db.games.Keys);
      var anchors, counts := CountClaims(games);
      AllClaimants(db, games);
      ClearedFrame(db);
      db := Cleared(db);
      var index := 0;
      while index < |games|
        invariant 0 <= index <= |games| && db == read.(games := db.games)
        invariant UpdateGames(read, Cleared(read), games, titles) == UpdateGames(read, db, games[index..], titles)
      {
        assert games[index..][0] == games[index] && games[index..][1..] == games[index + 1..];
        var game := games[index];
        var bank := anchors[game];
        RaIdsRead(read, db, game);
        var claims := if bank.ra in counts then counts[bank.ra] else 0;
        ok := UpdateRow(read, game, bank, |RaIdsOf(db, game)| > 1 || (bank.ra != 0 && claims > 1), titles);
        if !ok {
          return false;
        }
        index := index + 1;
      }
      return true;
    }

    method UpdateRow(ghost read: Db, game: nat, bank: Bank, conflict: bool, titles: set<nat>) returns (ok: bool)
      requires bank == AnchorBank(read, game) && conflict == InConflict(read, game) && db == read.(games := db.games)
      modifies this
      ensures UpdateGame(read, old(db), game, titles) == if ok then Just(db) else Nil
      ensures db == read.(games := db.games)
    {
      hide Constraints, AnchorBank, InConflict;
      if game !in db.games {
        return false;
      }
      var state := if conflict then CONFLICT
        else if bank.state == 0 then UNIDENTIFIED
        else if bank.ra == 0 then UNREGISTERED
        else IDENTIFIED;
      if state == IDENTIFIED {
        if bank.ra !in titles {
          return false;
        }
        ok := Execute(WithGame(db, game, bank.ra, IDENTIFIED));
      } else {
        ok := Execute(WithGame(db, game, db.games[game].ra, state));
      }
    }
  }

  /** The games of a list that claim this id. */
  ghost function ClaimantsAmong(db: Db, games: seq<nat>, ra: nat): set<nat> {
    set g | g in games && Claim(db, g) == ra
  }

  lemma AscendingLists(ids: set<nat>)
    ensures forall k :: 0 <= k < |Ascending(ids)| ==> Ascending(ids)[k] in ids
    ensures forall i :: i in ids ==> i in Ascending(ids)
    ensures forall i, j :: 0 <= i < j < |Ascending(ids)| ==> Ascending(ids)[i] != Ascending(ids)[j]
  {
  }

  lemma AllClaimants(db: Db, games: seq<nat>)
    requires forall g :: g in games <==> g in db.games
    ensures forall ra: nat :: ClaimantsAmong(db, games, ra) == Claimants(db, ra)
  {
    hide Claim;
  }

  lemma ClearedFrame(db: Db)
    ensures Cleared(db) == db.(games := Cleared(db).games)
  {
  }

  lemma RaIdsRead(read: Db, db: Db, game: nat)
    requires db == read.(games := db.games)
    ensures RaIdsOf(db, game) == RaIdsOf(read, game)
  {
    assert BanksOfGame(db, game) == BanksOfGame(read, game);
  }

  lemma OneMoreClaimant(db: Db, games: seq<nat>, index: nat)
    requires index < |games| && forall i, j :: 0 <= i < j < |games| ==> games[i] != games[j]
    ensures forall ra: nat ::
      |ClaimantsAmong(db, games[..index + 1], ra)| ==
        |ClaimantsAmong(db, games[..index], ra)| + (if Claim(db, games[index]) == ra then 1 else 0)
  {
    hide Claim;
    forall ra: nat
      ensures |ClaimantsAmong(db, games[..index + 1], ra)| ==
        |ClaimantsAmong(db, games[..index], ra)| + if Claim(db, games[index]) == ra then 1 else 0
    {
      assert games[..index + 1] == games[..index] + [games[index]];
      assert games[index] !in games[..index];
      if Claim(db, games[index]) == ra {
        assert ClaimantsAmong(db, games[..index + 1], ra) == ClaimantsAmong(db, games[..index], ra) + {games[index]};
      } else {
        assert ClaimantsAmong(db, games[..index + 1], ra) == ClaimantsAmong(db, games[..index], ra);
      }
    }
  }

  lemma AnchorsAreUnique(db: Db)
    requires Constraints(db)
    ensures OneAnchorEach(db)
  {
  }

  lemma AscendingNothing()
    ensures Ascending({}) == []
  {
  }

  lemma AscendingStep(ids: set<nat>)
    requires ids != {}
    ensures Ascending(ids) == [Lowest(ids)] + Ascending(ids - {Lowest(ids)})
  {
  }

  lemma Regroup(items: seq<nat>, id: nat, rest: seq<nat>)
    ensures items + ([id] + rest) == (items + [id]) + rest
  {
  }

  lemma PourIsChecked(db: Db, after: Db, source: nat, target: nat, next: nat)
    requires PourInto(db, source, target, next) == Just(after)
    ensures Constraints(after)
  {
    hide Constraints, MoveAll, MediaList;
  }
}
