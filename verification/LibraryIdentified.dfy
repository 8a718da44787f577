/**
 * What a committed synchronization makes of each game, said of the payload and the rows before it: which hashes of
 * the game's banks are matched, and to which ids.
 */
module LibraryIdentified {
  import opened Extremes
  import opened LibraryTables
  import opened LibraryMerge
  import opened LibrarySync

  // ---- the payload and the rows ----

  ghost predicate Matched(payload: Payload, hash: nat, ra: nat) {
    exists i :: 0 <= i < |payload.hashes| && payload.hashes[i] == Match(hash, ra)
  }

  ghost predicate BankMatched(db: Db, payload: Payload, k: BankKey, ra: nat) {
    k in db.banks && Matched(payload, db.banks[k].hash, ra)
  }

  /** Some bank of the game's media is matched to this id. */
  ghost predicate GameMatched(db: Db, payload: Payload, game: nat, ra: nat) {
    exists k :: BankMatched(db, payload, k, ra) && Owned(db, k.media, game)
  }

  /** The game's anchor bank is matched to this id. */
  ghost predicate AnchorMatched(db: Db, payload: Payload, game: nat, ra: nat) {
    exists k :: Anchors(db, game, k) && BankMatched(db, payload, k, ra)
  }

  /** The anchor is matched to this id, and no bank of the game to another. */
  ghost predicate Claims(db: Db, payload: Payload, game: nat, ra: nat) {
    AnchorMatched(db, payload, game, ra) && forall other :: GameMatched(db, payload, game, other) ==> other == ra
  }

  ghost predicate ClaimedTwice(db: Db, payload: Payload, ra: nat) {
    exists g, h :: g in db.games && h in db.games && g != h && Claims(db, payload, g, ra) && Claims(db, payload, h, ra)
  }

  /** Two ids among the game's banks, or an anchor's id that two games claim. */
  ghost predicate Disputed(db: Db, payload: Payload, game: nat) {
    || (exists a, b :: a != b && GameMatched(db, payload, game, a) && GameMatched(db, payload, game, b))
    || (exists ra :: AnchorMatched(db, payload, game, ra) && ClaimedTwice(db, payload, ra))
  }

  ghost predicate HasAnchorBank(db: Db, game: nat) {
    exists k :: Anchors(db, game, k)
  }

  // ---- the hash list ----

  ghost predicate Listed(hashes: seq<Match>, hash: nat) {
    exists i :: 0 <= i < |hashes| && hashes[i].hash == hash
  }

  lemma {:induction false} HashMapIs(hashes: seq<Match>, found: map<nat, nat>)
    requires HashMap(hashes, found).Just?
    ensures var matches := HashMap(hashes, found).value;
      && (forall h :: h in matches <==> h in found || Listed(hashes, h))
      && (forall h :: h in found ==> matches[h] == found[h])
      && (forall i :: 0 <= i < |hashes| ==>
            hashes[i].hash in matches && matches[hashes[i].hash] == hashes[i].ra && hashes[i].hash != 0 && hashes[i].ra != 0)
    decreases |hashes|
  {
    if hashes != [] {
      var rest := hashes[1..];
      HashMapIs(rest, found[hashes[0].hash := hashes[0].ra]);
      assert forall i :: 1 <= i < |hashes| ==> hashes[i] == rest[i - 1];
      forall h ensures Listed(hashes, h) <==> hashes[0].hash == h || Listed(rest, h) {
        if i :| 0 <= i < |rest| && rest[i].hash == h { assert hashes[i + 1].hash == h; }
      }
    }
  }

  lemma MatchedIs(payload: Payload, hash: nat, ra: nat)
    requires HashMap(payload.hashes, map[]).Just?
    ensures var matches := HashMap(payload.hashes, map[]).value;
      && (Matched(payload, hash, ra) <==> hash in matches && matches[hash] == ra)
      && (Matched(payload, hash, ra) ==> hash != 0 && ra != 0)
  {
    hide HashMap;
    HashMapIs(payload.hashes, map[]);
    var matches := HashMap(payload.hashes, map[]).value;
    if hash in matches && matches[hash] == ra {
      assert Listed(payload.hashes, hash);
      var i :| 0 <= i < |payload.hashes| && payload.hashes[i].hash == hash;
      assert payload.hashes[i] == Match(hash, ra);
    }
  }

  // ---- which payloads are good ----

  lemma {:induction false} HashMapExactly(hashes: seq<Match>, found: map<nat, nat>)
    ensures HashMap(hashes, found).Just? <==>
      && (forall i :: 0 <= i < |hashes| ==> hashes[i].hash != 0 && hashes[i].ra != 0 && hashes[i].hash !in found)
      && (forall i, j :: 0 <= i < j < |hashes| ==> hashes[i].hash != hashes[j].hash)
    decreases |hashes|
  {
    if hashes != [] {
      HashMapExactly(hashes[1..], found[hashes[0].hash := hashes[0].ra]);
      assert forall i :: 1 <= i < |hashes| ==> hashes[i] == hashes[1..][i - 1];
    }
  }

  lemma {:induction false} TitleIdsExactly(titles: seq<Title>, found: set<nat>)
    ensures TitleIds(titles, found).Just? <==>
      && (forall i :: 0 <= i < |titles| ==> titles[i].ra != 0 && !titles[i].empty && titles[i].ra !in found)
      && (forall i, j :: 0 <= i < j < |titles| ==> titles[i].ra != titles[j].ra)
    ensures TitleIds(titles, found).Just? ==>
      forall ra :: ra in TitleIds(titles, found).value <==> ra in found || HasTitle(titles, ra)
    decreases |titles|
  {
    if titles != [] {
      var rest := titles[1..];
      TitleIdsExactly(rest, found + {titles[0].ra});
      assert forall i :: 1 <= i < |titles| ==> titles[i] == rest[i - 1];
      forall ra ensures HasTitle(titles, ra) <==> titles[0].ra == ra || HasTitle(rest, ra) {
        if i :| 0 <= i < |rest| && rest[i].ra == ra { assert titles[i + 1].ra == ra; }
      }
    }
  }

  ghost predicate HasTitle(titles: seq<Title>, ra: nat) {
    exists i :: 0 <= i < |titles| && titles[i].ra == ra
  }

  lemma {:induction false} ProgressIdsExactly(items: seq<Progress>, found: set<nat>)
    ensures ProgressIds(items, found).Just? <==>
      && (forall i :: 0 <= i < |items| ==>
            && items[i].ra != 0 && items[i].coreUnlocked <= items[i].coreTotal
            && items[i].hardcoreUnlocked <= items[i].coreTotal && items[i].ra !in found)
      && (forall i, j :: 0 <= i < j < |items| ==> items[i].ra != items[j].ra)
    decreases |items|
  {
    if items != [] {
      ProgressIdsExactly(items[1..], found + {items[0].ra});
      assert forall i :: 1 <= i < |items| ==> items[i] == items[1..][i - 1];
    }
  }

  /** A user, distinct valid hashes, distinct titles for all their games, and distinct possible progress. */
  ghost predicate Complete(payload: Payload) {
    && payload.user != 0
    && (forall i :: 0 <= i < |payload.hashes| ==>
          && payload.hashes[i].hash != 0 && payload.hashes[i].ra != 0 && HasTitle(payload.titles, payload.hashes[i].ra))
    && (forall i, j :: 0 <= i < j < |payload.hashes| ==> payload.hashes[i].hash != payload.hashes[j].hash)
    && (forall i :: 0 <= i < |payload.titles| ==> payload.titles[i].ra != 0 && !payload.titles[i].empty)
    && (forall i, j :: 0 <= i < j < |payload.titles| ==> payload.titles[i].ra != payload.titles[j].ra)
    && (forall i :: 0 <= i < |payload.progress| ==>
          && payload.progress[i].ra != 0 && payload.progress[i].coreUnlocked <= payload.progress[i].coreTotal
          && payload.progress[i].hardcoreUnlocked <= payload.progress[i].coreTotal)
    && (forall i, j :: 0 <= i < j < |payload.progress| ==> payload.progress[i].ra != payload.progress[j].ra)
  }

  lemma TitledValues(payload: Payload)
    requires HashMap(payload.hashes, map[]).Just? && TitleIds(payload.titles, {}).Just?
    ensures HashMap(payload.hashes, map[]).value.Values <= TitleIds(payload.titles, {}).value <==>
      forall i :: 0 <= i < |payload.hashes| ==> HasTitle(payload.titles, payload.hashes[i].ra)
  {
    hide HashMap, TitleIds, HasTitle;
    HashMapIs(payload.hashes, map[]);
    TitleIdsExactly(payload.titles, {});
    var matches, titles := HashMap(payload.hashes, map[]).value, TitleIds(payload.titles, {}).value;
    if forall i :: 0 <= i < |payload.hashes| ==> HasTitle(payload.titles, payload.hashes[i].ra) {
      forall ra | ra in matches.Values ensures ra in titles {
        var h :| h in matches && matches[h] == ra;
        assert Listed(payload.hashes, h);
        var i :| 0 <= i < |payload.hashes| && payload.hashes[i].hash == h;
      }
    }
    if matches.Values <= titles {
      forall i | 0 <= i < |payload.hashes| ensures HasTitle(payload.titles, payload.hashes[i].ra) {
        assert matches[payload.hashes[i].hash] in matches.Values;
      }
    }
  }

  /** A sync is committed exactly when its payload is complete. */
  lemma CommitsExactly(db: Db, payload: Payload)
    requires Constraints(db)
    ensures Sync(db, payload).1 <==> Complete(payload)
  {
    hide Sync, Constraints, HashMap, TitleIds, ProgressIds, HasTitle, Synced;
    SyncExactly(db, payload);
    HashMapExactly(payload.hashes, map[]);
    TitleIdsExactly(payload.titles, {});
    ProgressIdsExactly(payload.progress, {});
    if HashMap(payload.hashes, map[]).Just? && TitleIds(payload.titles, {}).Just? { TitledValues(payload); }
  }

  // ---- the rows that the sync reads ----

  /** The database after the banks are identified. */
  ghost function Read(db: Db, payload: Payload): Db
    requires HashMap(payload.hashes, map[]).Just?
  {
    SyncedBanks(db, HashMap(payload.hashes, map[]).value)
  }

  /** A bank keeps its hash; it has an id exactly when its hash is matched to it. */
  lemma BankReads(db: Db, payload: Payload, k: BankKey)
    requires HashMap(payload.hashes, map[]).Just? && k in db.banks
    ensures var bank := Read(db, payload).banks[k];
      && bank.hash == db.banks[k].hash
      && (forall ra :: ra != 0 ==> (bank.ra == ra <==> BankMatched(db, payload, k, ra)))
      && (bank.state == UNIDENTIFIED <==> bank.hash == 0)
      && (bank.state == IDENTIFIED <==> bank.ra != 0)
      && (bank.state == UNREGISTERED <==> bank.hash != 0 && forall ra :: !BankMatched(db, payload, k, ra))
  {
    hide HashMap;
    HashMapIs(payload.hashes, map[]);
    var matches := HashMap(payload.hashes, map[]).value;
    forall ra ensures Matched(payload, db.banks[k].hash, ra) <==>
      db.banks[k].hash in matches && matches[db.banks[k].hash] == ra
    {
      MatchedIs(payload, db.banks[k].hash, ra);
    }
    if db.banks[k].hash in matches {
      MatchedIs(payload, db.banks[k].hash, matches[db.banks[k].hash]);
      assert BankMatched(db, payload, k, matches[db.banks[k].hash]);
    }
  }

  lemma ReadFrame(db: Db, payload: Payload)
    requires HashMap(payload.hashes, map[]).Just?
    ensures var read := Read(db, payload); read == db.(banks := read.banks) && read.banks.Keys == db.banks.Keys
  {
    hide HashMap;
    assert Read(db, payload).banks.Keys == db.banks.Keys;
  }

  lemma IdsRead(db: Db, payload: Payload, game: nat)
    requires HashMap(payload.hashes, map[]).Just?
    ensures forall ra :: ra in RaIdsOf(Read(db, payload), game) <==> GameMatched(db, payload, game, ra)
  {
    hide HashMap, SyncedBanks, BankMatched;
    ReadFrame(db, payload);
    var read := Read(db, payload);
    forall ra ensures ra in RaIdsOf(read, game) <==> GameMatched(db, payload, game, ra) {
      if ra in RaIdsOf(read, game) {
        var k :| k in BanksOfGame(read, game) && read.banks[k].ra != 0 && read.banks[k].ra == ra;
        BankReads(db, payload, k);
      }
      if GameMatched(db, payload, game, ra) {
        var k :| BankMatched(db, payload, k, ra) && Owned(db, k.media, game);
        MatchedBank(db, payload, k, ra);
        BankReads(db, payload, k);
        assert k in BanksOfGame(read, game);
      }
    }
  }

  lemma MatchedBank(db: Db, payload: Payload, k: BankKey, ra: nat)
    requires HashMap(payload.hashes, map[]).Just? && BankMatched(db, payload, k, ra)
    ensures k in db.banks && ra != 0
  {
    MatchedIs(payload, db.banks[k].hash, ra);
  }

  /** The anchor bank is the one the anchor profile names; there is at most one. */
  lemma AnchorRead(db: Db, payload: Payload, game: nat, k: BankKey)
    requires HashMap(payload.hashes, map[]).Just? && OneAnchorEach(db) && Anchors(db, game, k)
    ensures k in db.banks && AnchorBank(Read(db, payload), game) == Read(db, payload).banks[k]
    ensures forall j :: Anchors(db, game, j) ==> j == k
  {
    hide HashMap, SyncedBanks;
    ReadFrame(db, payload);
    assert forall j :: Anchors(Read(db, payload), game, j) <==> Anchors(db, game, j);
  }

  lemma NoAnchorRead(db: Db, payload: Payload, game: nat)
    requires HashMap(payload.hashes, map[]).Just? && !HasAnchorBank(db, game)
    ensures AnchorBank(Read(db, payload), game) == Bank(0, 0, UNIDENTIFIED)
  {
    hide HashMap, SyncedBanks;
    ReadFrame(db, payload);
    assert forall j :: Anchors(Read(db, payload), game, j) <==> Anchors(db, game, j);
  }

  lemma AnchorIdRead(db: Db, payload: Payload, game: nat)
    requires HashMap(payload.hashes, map[]).Just? && OneAnchorEach(db)
    ensures forall ra :: ra != 0 ==> (AnchorBank(Read(db, payload), game).ra == ra <==> AnchorMatched(db, payload, game, ra))
    ensures forall ra :: AnchorMatched(db, payload, game, ra) ==> ra != 0
  {
    hide HashMap, AnchorBank, Anchors, BankMatched, Read, OneAnchorEach;
    if HasAnchorBank(db, game) {
      var k :| Anchors(db, game, k);
      AnchorRead(db, payload, game, k);
      BankReads(db, payload, k);
      forall ra | AnchorMatched(db, payload, game, ra) ensures ra != 0 && BankMatched(db, payload, k, ra) {
        var j :| Anchors(db, game, j) && BankMatched(db, payload, j, ra);
        MatchedBank(db, payload, j, ra);
      }
    } else {
      NoAnchorRead(db, payload, game);
    }
  }

  lemma AnchorIsOwn(db: Db, payload: Payload, game: nat, ra: nat)
    requires Constraints(db) && AnchorMatched(db, payload, game, ra)
    ensures GameMatched(db, payload, game, ra)
  {
    hide BankMatched;
    var k :| Anchors(db, game, k) && BankMatched(db, payload, k, ra);
    assert Owned(db, k.media, game);
  }

  lemma ClaimRead(db: Db, payload: Payload, game: nat, ra: nat)
    requires Constraints(db) && HashMap(payload.hashes, map[]).Just? && ra != 0
    ensures Claim(Read(db, payload), game) == ra <==> Claims(db, payload, game, ra)
  {
    hide HashMap, AnchorBank, AnchorMatched, GameMatched, Constraints, RaIdsOf, Read;
    var ids := RaIdsOf(Read(db, payload), game);
    AnchorsAreOne(db);
    AnchorIdRead(db, payload, game);
    IdsRead(db, payload, game);
    if AnchorMatched(db, payload, game, ra) {
      AnchorIsOwn(db, payload, game, ra);
      OneElement(ids, ra);
    }
  }

  lemma AnchorsAreOne(db: Db)
    requires Constraints(db)
    ensures OneAnchorEach(db)
  {
  }

  lemma RivalsRead(db: Db, payload: Payload, ra: nat)
    requires Constraints(db) && HashMap(payload.hashes, map[]).Just? && ra != 0
    ensures |Claimants(Read(db, payload), ra)| > 1 <==> ClaimedTwice(db, payload, ra)
  {
    hide HashMap, Claim, Claims, Constraints, SyncedBanks;
    ReadFrame(db, payload);
    var rivals := Claimants(Read(db, payload), ra);
    forall g ensures g in rivals <==> g in db.games && Claims(db, payload, g, ra) {
      ClaimRead(db, payload, g, ra);
    }
    if |rivals| > 1 {
      var g :| g in rivals;
      OneElement(rivals, g);
      var h :| h in rivals && h != g;
      assert Claims(db, payload, g, ra) && Claims(db, payload, h, ra);
    }
    if g, h :| g in db.games && h in db.games && g != h && Claims(db, payload, g, ra) && Claims(db, payload, h, ra) {
      PairHasTwo(g, h, rivals);
    }
  }

  lemma DisputedRead(db: Db, payload: Payload, game: nat)
    requires Constraints(db) && HashMap(payload.hashes, map[]).Just?
    ensures InConflict(Read(db, payload), game) <==> Disputed(db, payload, game)
  {
    hide HashMap, AnchorBank, AnchorMatched, GameMatched, Constraints, RaIdsOf, Read, Claimants, ClaimedTwice;
    var read := Read(db, payload);
    var ids, id := RaIdsOf(read, game), AnchorBank(read, game).ra;
    AnchorsAreOne(db);
    AnchorIdRead(db, payload, game);
    IdsRead(db, payload, game);
    if id != 0 { RivalsRead(db, payload, id); }
    TwoIds(ids);
  }

  lemma TwoIds(ids: set<nat>)
    ensures |ids| > 1 <==> exists a, b :: a != b && a in ids && b in ids
  {
    if |ids| > 1 {
      var a :| a in ids;
      OneElement(ids, a);
      var b :| b in ids && b != a;
    }
    if a, b :| a != b && a in ids && b in ids {
      SubsetIsSmaller({a, b}, ids);
    }
  }

  // ---- what a sync makes of a game ----

  lemma VerdictRead(db: Db, payload: Payload, game: nat)
    requires Constraints(db) && HashMap(payload.hashes, map[]).Just?
    ensures var settled := Settled(Read(db, payload), game);
      && (settled.state == CONFLICT <==> Disputed(db, payload, game))
      && (settled.ra != 0 <==> settled.state == IDENTIFIED)
      && (forall ra :: ra != 0 ==>
            (settled.ra == ra <==> !Disputed(db, payload, game) && AnchorMatched(db, payload, game, ra)))
      && (!Disputed(db, payload, game) ==>
            && (settled.state == UNIDENTIFIED <==> forall k :: Anchors(db, game, k) && k in db.banks ==> db.banks[k].hash == 0)
            && (settled.state == UNREGISTERED <==>
                  (exists k :: Anchors(db, game, k) && k in db.banks && db.banks[k].hash != 0)
                  && forall ra :: !AnchorMatched(db, payload, game, ra)))
  {
    hide HashMap, AnchorMatched, Constraints, Read, InConflict, Disputed, AnchorBank, Anchors;
    AnchorsAreOne(db);
    DisputedRead(db, payload, game);
    AnchorIdRead(db, payload, game);
    var id := AnchorBank(Read(db, payload), game).ra;
    assert id != 0 ==> AnchorMatched(db, payload, game, id);
    if HasAnchorBank(db, game) {
      var k :| Anchors(db, game, k);
      AnchorRead(db, payload, game, k);
      BankReads(db, payload, k);
    } else {
      NoAnchorRead(db, payload, game);
    }
  }

  lemma UndisputedClaims(db: Db, payload: Payload, game: nat, ra: nat)
    requires Constraints(db) && HashMap(payload.hashes, map[]).Just? && game in db.games
    ensures !Disputed(db, payload, game) && AnchorMatched(db, payload, game, ra) <==>
      Claims(db, payload, game, ra) && forall h :: h in db.games && Claims(db, payload, h, ra) ==> h == game
  {
    hide HashMap, AnchorMatched, GameMatched, Constraints;
    if AnchorMatched(db, payload, game, ra) {
      AnchorIsOwn(db, payload, game, ra);
      AnchorsAreOne(db);
      AnchorIdRead(db, payload, game);
      assert forall other :: AnchorMatched(db, payload, game, other) ==> other == ra;
      if !Disputed(db, payload, game) {
        assert Claims(db, payload, game, ra);
        assert !ClaimedTwice(db, payload, ra);
      }
    }
  }

  /**
   * After a committed sync a game is identified as r exactly when its anchor bank's hash is matched to r, no bank of
   * its media to another id, and no other game has such an anchor and media for r. It is in conflict exactly when
   * its banks are matched to two ids, or its anchor's id is claimed by two games. Otherwise it is unidentified when it
   * has no anchor bank with a hash, and unregistered when that hash is not matched.
   */
  lemma IdentifiedExactly(db: Db, payload: Payload, game: nat, ra: nat)
    requires Constraints(db) && game in db.games && Sync(db, payload).1 && ra != 0
    ensures var after := Sync(db, payload).0;
      && game in after.games
      && (after.games[game] == Game(ra, IDENTIFIED) <==>
            Claims(db, payload, game, ra) && forall h :: h in db.games && Claims(db, payload, h, ra) ==> h == game)
      && (after.games[game].ra != 0 <==> after.games[game].state == IDENTIFIED)
      && (after.games[game].state == CONFLICT <==> Disputed(db, payload, game))
  {
    hide Sync, Constraints, HashMap, Synced, Settled, Disputed, Claims, AnchorMatched, PayloadIsGood;
    GoodHashes(db, payload);
    SettledIs(db, payload, game);
    VerdictRead(db, payload, game);
    UndisputedClaims(db, payload, game, ra);
  }

  lemma UnknownExactly(db: Db, payload: Payload, game: nat)
    requires Constraints(db) && game in db.games && Sync(db, payload).1 && !Disputed(db, payload, game)
    ensures var after := Sync(db, payload).0;
      && game in after.games
      && (after.games[game].state == UNIDENTIFIED <==>
            forall k :: Anchors(db, game, k) && k in db.banks ==> db.banks[k].hash == 0)
      && (after.games[game].state == UNREGISTERED <==>
            (exists k :: Anchors(db, game, k) && k in db.banks && db.banks[k].hash != 0)
            && forall ra :: !AnchorMatched(db, payload, game, ra))
  {
    hide Sync, Constraints, HashMap, Synced, Settled, Disputed, AnchorMatched, PayloadIsGood, Anchors;
    GoodHashes(db, payload);
    SettledIs(db, payload, game);
    VerdictRead(db, payload, game);
  }

  lemma GoodHashes(db: Db, payload: Payload)
    requires Constraints(db) && Sync(db, payload).1
    ensures HashMap(payload.hashes, map[]).Just?
  {
    hide Constraints, HashMap, SyncTables, ProgressIds, TitleIds;
  }

  lemma SettledIs(db: Db, payload: Payload, game: nat)
    requires Constraints(db) && Sync(db, payload).1 && HashMap(payload.hashes, map[]).Just? && game in db.games
    ensures game in Sync(db, payload).0.games && Sync(db, payload).0.games[game] == Settled(Read(db, payload), game)
  {
    hide Sync, Constraints, HashMap, Settled, PayloadIsGood, SyncedBanks, HasProgress;
    SyncExactly(db, payload);
  }

  /** After a committed sync a bank has an id exactly when its hash is matched to it. */
  lemma BanksExactly(db: Db, payload: Payload, k: BankKey)
    requires Constraints(db) && k in db.banks && Sync(db, payload).1
    ensures var after := Sync(db, payload).0;
      && k in after.banks && after.banks[k].hash == db.banks[k].hash
      && (forall ra :: ra != 0 ==> (after.banks[k].ra == ra <==> BankMatched(db, payload, k, ra)))
      && (after.banks[k].state == UNIDENTIFIED <==> db.banks[k].hash == 0)
      && (after.banks[k].state == IDENTIFIED <==> after.banks[k].ra != 0)
  {
    hide Sync, Constraints, HashMap, Settled, PayloadIsGood, SyncedBanks, HasProgress, BankMatched;
    GoodHashes(db, payload);
    SyncExactly(db, payload);
    ReadFrame(db, payload);
    BankReads(db, payload, k);
  }

  // ---- an input ----

  /** One game with one disk, and a payload that knows its hash. */
  const ALONE: Db := Db(
    map[1 := Game(0, UNIDENTIFIED)], map[11 := In(1, 0)], map[BankKey(11, 0) := Bank(9, 0, UNIDENTIFIED)],
    map[Slot(1, 0) := Profile(11, 0, true)], map[])

  const KNOWN: Payload := Payload(1, [Match(9, 5)], [Title(5, false)], [])

  lemma KnownIsGood()
    ensures PayloadIsGood(KNOWN)
  {
    assert KNOWN.hashes[1..] == [] && KNOWN.titles[1..] == [];
    assert HashMap(KNOWN.hashes, map[]) == HashMap([], map[9 := 5]) == Just(map[9 := 5]);
    assert TitleIds(KNOWN.titles, {}) == TitleIds([], {} + {5}) == Just({} + {5});
    assert map[9 := 5].Values == {5};
  }

  lemma AloneClaims()
    ensures Constraints(ALONE) && Claims(ALONE, KNOWN, 1, 5)
  {
    assert Slot(1, 0) in ALONE.profiles && BankKey(11, 0) in ALONE.banks;
    assert Anchors(ALONE, 1, BankKey(11, 0));
    assert KNOWN.hashes[0] == Match(9, 5);
    assert BankMatched(ALONE, KNOWN, BankKey(11, 0), 5);
  }

  /** The game is identified. */
  lemma AloneIsIdentified()
    ensures Sync(ALONE, KNOWN).1 && 1 in Sync(ALONE, KNOWN).0.games
    ensures Sync(ALONE, KNOWN).0.games[1] == Game(5, IDENTIFIED)
  {
    hide Sync, Constraints, PayloadIsGood, Claims, Synced;
    KnownIsGood();
    AloneClaims();
    SyncExactly(ALONE, KNOWN);
    IdentifiedExactly(ALONE, KNOWN, 1, 5);
  }
}
