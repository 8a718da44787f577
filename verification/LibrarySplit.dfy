/** The SPLIT transaction: one game becomes one game for each RA id, its media renumbered row by row. */
module LibrarySplit {
  import opened Extremes
  import opened LibraryTables
  import opened LibraryMerge

  // ---- what the transaction reads ----

  /** MIN(mb.ra_game_id) of one medium. */
  ghost function RaOf(db: Db, m: nat): nat {
    if RaIdsOfMedia(db, m) == {} then 0 else Lowest(RaIdsOfMedia(db, m))
  }

  function BankIndexes(db: Db, m: nat): set<nat> {
    set k | k in BanksOf(db, m) :: k.index
  }

  /** MIN(mb.bank_index) of one medium. */
  ghost function FirstBank(db: Db, m: nat): nat {
    if BankIndexes(db, m) == {} then 0 else Lowest(BankIndexes(db, m))
  }

  /** The anchor profile of a game, if it has one. */
  ghost predicate HasAnchor(db: Db, game: nat) {
    exists p :: p in db.profiles && p.game == game && db.profiles[p].anchor
  }

  ghost function AnchorOf(db: Db, game: nat): Profile
    requires HasAnchor(db, game)
  {
    var p :| p in db.profiles && p.game == game && db.profiles[p].anchor;
    db.profiles[p]
  }

  // ---- the three loops ----

  ghost function NextGame(db: Db): (id: nat)
    ensures id !in db.games && id > 0
  {
    Highest(db.games.Keys) + 1
  }

  /** The first loop: a new game for each id that has no destination yet, in the order of the media. */
  ghost function MakeGames(db: Db, items: seq<nat>, dest: map<nat, nat>): Option<(Db, map<nat, nat>)>
    decreases |items|
  {
    if items == [] then Just((db, dest))
    else
      var ra := RaOf(db, items[0]);
      if ra in dest then MakeGames(db, items[1..], dest)
      else match Checked(WithGame(db, NextGame(db), ra, IDENTIFIED))
        case Nil => Nil
        case Just(made) => MakeGames(made, items[1..], dest[ra := NextGame(db)])
  }

  /** The second loop: each medium to its destination, at the next ordinal counted for its id. */
  ghost function Distribute(db: Db, game: nat, items: seq<nat>, dest: map<nat, nat>, counts: map<nat, nat>): Option<Db>
    decreases |items|
  {
    if items == [] then Just(db)
    else
      var ra := RaOf(db, items[0]);
      if ra !in dest then Nil
      else
        var count := if ra in counts then counts[ra] else 0;
        match Move(db, items[0], game, dest[ra], count)
        case Nil => Nil
        case Just(moved) => Distribute(moved, game, items[1..], dest, counts[ra := count + 1])
  }

  // ---- the second loop never collides ----

  function CountOf(counts: map<nat, nat>, ra: nat): nat {
    if ra in counts then counts[ra] else 0
  }

  /** Each destination's id; the map is one to one. */
  ghost predicate OneToOne(db: Db, dest: map<nat, nat>) {
    && (forall a, b :: a in dest && b in dest && dest[a] == dest[b] ==> a == b)
    && (forall a :: a in dest ==> dest[a] in db.games)
  }

  /** A medium of the game that the list has: one with banks. */
  predicate Listed(db: Db, m: nat, game: nat) {
    Owned(db, m, game) && BanksOf(db, m) != {}
  }

  /**
   * Before each row of the second loop: every destination holds only ordinals below its count among the media
   * already placed, and the media still to place, all of the old game, have ordinals no less than the old
   * game's count plus their position. Media without banks stay where they are, and were not in the way so far.
   */
  ghost predicate Placing(db: Db, game: nat, items: seq<nat>, dest: map<nat, nat>, counts: map<nat, nat>, anchor: nat) {
    && OneToOne(db, dest) && anchor in dest && dest[anchor] == game
    && ToPlace(db, game, items, dest, CountOf(counts, anchor))
    && AlreadyPlaced(db, items, dest, counts, anchor)
  }

  ghost predicate ToPlace(db: Db, game: nat, items: seq<nat>, dest: map<nat, nat>, count: nat) {
    && (forall k :: 0 <= k < |items| ==>
          && Listed(db, items[k], game) && NoProfilesOn(db, items[k]) && RaOf(db, items[k]) in dest
          && db.media[items[k]].ordinal >= count + k)
    && (forall i, j :: 0 <= i < j < |items| ==> items[i] != items[j])
  }

  ghost predicate AlreadyPlaced(db: Db, items: seq<nat>, dest: map<nat, nat>, counts: map<nat, nat>, anchor: nat) {
    forall ra, m :: ra in dest && Owned(db, m, dest[ra]) ==>
      if BanksOf(db, m) == {} then ra == anchor && db.media[m].ordinal >= CountOf(counts, anchor)
      else if m in items then ra == anchor
      else db.media[m].ordinal < CountOf(counts, ra)
  }

  /** A medium without banks has this ordinal in the game. */
  ghost predicate InTheWay(db: Db, game: nat, ordinal: nat) {
    exists m :: m in db.media && db.media[m] == In(game, ordinal) && BanksOf(db, m) == {}
  }

  /** The next place is vacant unless it is the old game's and a medium without banks is there. */
  lemma NextPlaceIsVacantExactly(db: Db, game: nat, items: seq<nat>, dest: map<nat, nat>, counts: map<nat, nat>,
    anchor: nat)
    requires Placing(db, game, items, dest, counts, anchor) && items != []
    ensures var ra := RaOf(db, items[0]);
      VacantFor(db, items[0], dest[ra], CountOf(counts, ra)) <==>
        !(ra == anchor && InTheWay(db, game, CountOf(counts, anchor)))
  {
    hide RaOf, BanksOf;
    var ra := RaOf(db, items[0]);
    if ra == anchor && InTheWay(db, game, CountOf(counts, anchor)) {
      var m :| m in db.media && db.media[m] == In(game, CountOf(counts, anchor)) && BanksOf(db, m) == {};
      assert Listed(db, items[0], game) && m != items[0];
    } else {
      forall m | m in db.media && m != items[0]
        ensures db.media[m] != In(dest[ra], CountOf(counts, ra))
      {
        if Owned(db, m, dest[ra]) { OtherPlaces(db, game, items, dest, counts, anchor, ra, m); }
      }
    }
  }

  lemma OtherPlaces(db: Db, game: nat, items: seq<nat>, dest: map<nat, nat>, counts: map<nat, nat>, anchor: nat,
    ra: nat, m: nat)
    requires Placing(db, game, items, dest, counts, anchor) && items != [] && ra in dest && Owned(db, m, dest[ra])
    requires m != items[0] && !(ra == anchor && InTheWay(db, game, CountOf(counts, anchor)))
    ensures db.media[m].ordinal != CountOf(counts, ra)
  {
    hide RaOf, BanksOf;
    if BanksOf(db, m) == {} {
      assert ra == anchor;
      assert db.media[m] == In(game, CountOf(counts, anchor)) ==> InTheWay(db, game, CountOf(counts, anchor));
    } else if m in items {
      var k :| 0 <= k < |items| && items[k] == m;
      assert k > 0;
    } else {
      assert Listed(db, m, dest[ra]);
    }
  }

  lemma BanksRead(db: Db, after: Db)
    requires after.banks == db.banks
    ensures forall m :: BanksOf(after, m) == BanksOf(db, m)
  {
    forall m ensures BanksOf(after, m) == BanksOf(db, m) {
      RaOfReads(db, after, m);
    }
  }

  lemma RaOfReads(db: Db, after: Db, m: nat)
    requires after.banks == db.banks
    ensures RaOf(after, m) == RaOf(db, m) && FirstBank(after, m) == FirstBank(db, m)
    ensures BanksOf(after, m) == BanksOf(db, m) && RaIdsOfMedia(after, m) == RaIdsOfMedia(db, m)
  {
    assert BanksOf(after, m) == BanksOf(db, m);
    assert RaIdsOfMedia(after, m) == RaIdsOfMedia(db, m);
    assert BankIndexes(after, m) == BankIndexes(db, m);
  }

  function Counted(counts: map<nat, nat>, ra: nat): map<nat, nat> {
    counts[ra := CountOf(counts, ra) + 1]
  }

  /** The row placed by one step, with its id. */
  function Placed(db: Db, items: seq<nat>, dest: map<nat, nat>, counts: map<nat, nat>, ra: nat): Db
    requires items != [] && ra in dest
  {
    WithPlace(db, items[0], dest[ra], CountOf(counts, ra))
  }

  lemma PlacingItems(db: Db, game: nat, items: seq<nat>, dest: map<nat, nat>, counts: map<nat, nat>, anchor: nat, k: nat)
    requires Placing(db, game, items, dest, counts, anchor) && 1 <= k < |items|
    ensures var ra := RaOf(db, items[0]);
      var after := Placed(db, items, dest, counts, ra);
      && Listed(after, items[k], game) && NoProfilesOn(after, items[k]) && RaOf(after, items[k]) in dest
      && after.media[items[k]].ordinal >= CountOf(Counted(counts, ra), anchor) + (k - 1)
  {
    hide RaOf, BanksOf;
    var ra := RaOf(db, items[0]);
    var after := Placed(db, items, dest, counts, ra);
    RaOfReads(db, after, items[k]);
    assert items[k] != items[0];
    assert Listed(db, items[k], game) && NoProfilesOn(db, items[k]);
  }

  /** Where a medium of a destination is after one step. */
  lemma PlacingPlaces(db: Db, game: nat, items: seq<nat>, dest: map<nat, nat>, counts: map<nat, nat>, anchor: nat,
    b: nat, m: nat)
    requires Placing(db, game, items, dest, counts, anchor) && items != [] && b in dest
    requires Owned(Placed(db, items, dest, counts, RaOf(db, items[0])), m, dest[b])
    requires !(RaOf(db, items[0]) == anchor && InTheWay(db, game, CountOf(counts, anchor)))
    ensures var ra := RaOf(db, items[0]);
      var after := Placed(db, items, dest, counts, ra);
      if BanksOf(db, m) == {} then b == anchor && after.media[m].ordinal >= CountOf(Counted(counts, ra), anchor)
      else if m in items[1..] then b == anchor
      else after.media[m].ordinal < CountOf(Counted(counts, ra), b)
  {
    hide RaOf, BanksOf;
    var ra := RaOf(db, items[0]);
    assert items == [items[0]] + items[1..] && Listed(db, items[0], game);
    if m == items[0] {
      assert dest[b] == dest[ra];
      assert forall k :: 0 <= k < |items[1..]| ==> items[1..][k] == items[k + 1];
    } else {
      assert Owned(db, m, dest[b]);
      if BanksOf(db, m) == {} && ra == anchor {
        assert !InTheWay(db, game, CountOf(counts, anchor));
        assert db.media[m] != In(game, CountOf(counts, anchor));
      }
    }
  }

  lemma ToPlaceStep(db: Db, game: nat, items: seq<nat>, dest: map<nat, nat>, counts: map<nat, nat>, anchor: nat)
    requires Placing(db, game, items, dest, counts, anchor) && items != []
    ensures var ra := RaOf(db, items[0]);
      ToPlace(Placed(db, items, dest, counts, ra), game, items[1..], dest, CountOf(Counted(counts, ra), anchor))
  {
    hide RaOf, BanksOf, NoProfilesOn, AlreadyPlaced;
    var ra := RaOf(db, items[0]);
    var after, rest := Placed(db, items, dest, counts, ra), items[1..];
    assert forall k :: 0 <= k < |rest| ==> rest[k] == items[k + 1];
    forall k | 0 <= k < |rest|
      ensures Listed(after, rest[k], game) && NoProfilesOn(after, rest[k]) && RaOf(after, rest[k]) in dest
      ensures after.media[rest[k]].ordinal >= CountOf(Counted(counts, ra), anchor) + k
    {
      PlacingItems(db, game, items, dest, counts, anchor, k + 1);
    }
  }

  lemma PlacingStep(db: Db, game: nat, items: seq<nat>, dest: map<nat, nat>, counts: map<nat, nat>, anchor: nat)
    requires Placing(db, game, items, dest, counts, anchor) && items != []
    requires !(RaOf(db, items[0]) == anchor && InTheWay(db, game, CountOf(counts, anchor)))
    ensures var ra := RaOf(db, items[0]);
      Placing(Placed(db, items, dest, counts, ra), game, items[1..], dest, Counted(counts, ra), anchor)
  {
    hide RaOf, BanksOf, InTheWay, ToPlace;
    var ra := RaOf(db, items[0]);
    FirstItem(db, game, items, dest, counts, anchor);
    var after := Placed(db, items, dest, counts, ra);
    ToPlaceStep(db, game, items, dest, counts, anchor);
    BanksRead(db, after);
    forall b, m | b in dest && Owned(after, m, dest[b])
      ensures if BanksOf(db, m) == {} then b == anchor && after.media[m].ordinal >= CountOf(Counted(counts, ra), anchor)
        else if m in items[1..] then b == anchor
        else after.media[m].ordinal < CountOf(Counted(counts, ra), b)
    {
      PlacingPlaces(db, game, items, dest, counts, anchor, b, m);
    }
    assert AlreadyPlaced(after, items[1..], dest, Counted(counts, ra), anchor);
  }

  /** A medium with banks that is not one of these is at this place. */
  ghost predicate Taken(db: Db, items: seq<nat>, game: nat, ordinal: nat) {
    exists m :: m in db.media && m !in items && db.media[m] == In(game, ordinal) && BanksOf(db, m) != {}
  }

  /** Ordinals 0 to n - 1, each once: with UNIQUE(game_id, ordinal) the media with banks are numbered without a gap. */
  ghost predicate Contiguous(db: Db, game: nat, n: nat) {
    && (forall m :: Listed(db, m, game) ==> db.media[m].ordinal < n)
    && (forall o: nat :: o < n ==> Taken(db, [], game, o))
  }

  /** Every ordinal below a destination's count is taken by a medium already placed. */
  ghost predicate Filled(db: Db, items: seq<nat>, dest: map<nat, nat>, counts: map<nat, nat>) {
    forall ra, o: nat :: ra in dest && o < CountOf(counts, ra) ==> Taken(db, items, dest[ra], o)
  }

  lemma FilledStep(db: Db, game: nat, items: seq<nat>, dest: map<nat, nat>, counts: map<nat, nat>, anchor: nat)
    requires Placing(db, game, items, dest, counts, anchor) && items != [] && Filled(db, items, dest, counts)
    ensures var ra := RaOf(db, items[0]);
      Filled(Placed(db, items, dest, counts, ra), items[1..], dest, Counted(counts, ra))
  {
    hide RaOf, BanksOf;
    var ra := RaOf(db, items[0]);
    var after := Placed(db, items, dest, counts, ra);
    BanksRead(db, after);
    assert Listed(db, items[0], game);
    assert forall k :: 0 <= k < |items[1..]| ==> items[1..][k] == items[k + 1];
    forall b, o: nat | b in dest && o < CountOf(Counted(counts, ra), b)
      ensures Taken(after, items[1..], dest[b], o)
    {
      if o < CountOf(counts, b) {
        assert Taken(db, items, dest[b], o);
        var m :| m in db.media && m !in items && db.media[m] == In(dest[b], o) && BanksOf(db, m) != {};
        assert m in after.media && after.media[m] == In(dest[b], o);
      } else {
        assert b == ra && after.media[items[0]] == In(dest[ra], o);
      }
    }
  }

  /** Where the second loop leaves the media. */
  ghost predicate Distributed(db: Db, after: Db, items: seq<nat>, dest: map<nat, nat>) {
    && after == db.(media := after.media) && after.media.Keys == db.media.Keys
    && (forall k :: 0 <= k < |items| ==> RaOf(db, items[k]) in dest && Owned(after, items[k], dest[RaOf(db, items[k])]))
    && (forall m :: m in db.media && m !in items ==> after.media[m] == db.media[m])
  }

  /** How many of these media have this id. */
  ghost function Count(db: Db, items: seq<nat>, id: nat): nat
    decreases |items|
  {
    if items == [] then 0 else (if RaOf(db, items[0]) == id then 1 else 0) + Count(db, items[1..], id)
  }

  lemma {:induction false} CountReads(db: Db, after: Db, items: seq<nat>, id: nat)
    requires after.banks == db.banks
    ensures Count(after, items, id) == Count(db, items, id)
    decreases |items|
  {
    if items != [] {
      RaOfReads(db, after, items[0]);
      CountReads(db, after, items[1..], id);
    }
  }

  /** No medium of the game without banks has an ordinal below this one. */
  ghost predicate ClearBelow(db: Db, game: nat, n: nat) {
    forall m :: Owned(db, m, game) && BanksOf(db, m) == {} ==> db.media[m].ordinal >= n
  }

  /**
   * The second loop succeeds exactly when no medium without banks has one of the ordinals it counts up for the
   * old game. Every destination then has its media with banks numbered without a gap.
   */
  lemma {:induction false} DistributeExactly(db: Db, game: nat, items: seq<nat>, dest: map<nat, nat>,
    counts: map<nat, nat>, anchor: nat)
    requires Constraints(db) && Placing(db, game, items, dest, counts, anchor) && Filled(db, items, dest, counts)
    ensures Distribute(db, game, items, dest, counts).Just? <==>
      ClearBelow(db, game, CountOf(counts, anchor) + Count(db, items, anchor))
    ensures Distribute(db, game, items, dest, counts).Just? ==>
      var after := Distribute(db, game, items, dest, counts).value;
      && Constraints(after) && Distributed(db, after, items, dest)
      && forall ra :: ra in dest ==> exists n :: Contiguous(after, dest[ra], n)
    decreases |items|
  {
    hide Constraints, Placing, Filled, RaOf, Contiguous, InTheWay, ClearBelow, VacantFor;
    if items == [] {
      ClearSoFar(db, game, dest, counts, anchor);
      forall ra | ra in dest
        ensures exists n :: Contiguous(db, dest[ra], n)
      {
        PlacedAll(db, game, dest, counts, anchor, ra);
      }
    } else {
      var ra := RaOf(db, items[0]);
      FirstItem(db, game, items, dest, counts, anchor);
      NextPlaceIsVacantExactly(db, game, items, dest, counts, anchor);
      if ra == anchor && InTheWay(db, game, CountOf(counts, anchor)) {
        OccupiedMoveFails(db, items[0], game, dest[ra], CountOf(counts, ra));
        BlockedBelow(db, game, CountOf(counts, anchor), CountOf(counts, anchor) + Count(db, items, anchor));
      } else {
        var step := Placed(db, items, dest, counts, ra);
        MoveKeeps(db, items[0], dest[ra], CountOf(counts, ra));
        PlacingStep(db, game, items, dest, counts, anchor);
        FilledStep(db, game, items, dest, counts, anchor);
        DistributeExactly(step, game, items[1..], dest, Counted(counts, ra), anchor);
        CountReads(db, step, items[1..], anchor);
        ClearReads(db, step, items[0], game, CountOf(counts, anchor) + Count(db, items, anchor));
        if Distribute(step, game, items[1..], dest, Counted(counts, ra)).Just? {
          DistributedChains(db, step, Distribute(db, game, items, dest, counts).value, items, dest, ra);
        }
      }
    }
  }

  lemma ClearSoFar(db: Db, game: nat, dest: map<nat, nat>, counts: map<nat, nat>, anchor: nat)
    requires Placing(db, game, [], dest, counts, anchor)
    ensures ClearBelow(db, game, CountOf(counts, anchor))
  {
    hide RaOf, BanksOf;
  }

  lemma OccupiedMoveFails(db: Db, m: nat, source: nat, target: nat, ordinal: nat)
    requires !VacantFor(db, m, target, ordinal) && Owned(db, m, source)
    ensures Move(db, m, source, target, ordinal) == Nil
  {
    var after := WithPlace(db, m, target, ordinal);
    var n :| n in db.media && n != m && db.media[n] == In(target, ordinal);
    assert after.media[n] == after.media[m];
    assert !UniqueOrdinals(after);
  }

  lemma BlockedBelow(db: Db, game: nat, ordinal: nat, n: nat)
    requires InTheWay(db, game, ordinal) && ordinal < n
    ensures !ClearBelow(db, game, n)
  {
    hide BanksOf;
    var m :| m in db.media && db.media[m] == In(game, ordinal) && BanksOf(db, m) == {};
    assert Owned(db, m, game);
  }

  /** Moving a medium with banks leaves the media without banks where they are. */
  lemma ClearReads(db: Db, step: Db, m: nat, game: nat, n: nat)
    requires step == db.(media := step.media) && step.media.Keys == db.media.Keys && BanksOf(db, m) != {}
    requires forall o :: o in db.media && o != m ==> step.media[o] == db.media[o]
    ensures ClearBelow(step, game, n) <==> ClearBelow(db, game, n)
  {
    BanksRead(db, step);
    hide BanksOf;
    forall o | BanksOf(db, o) == {}
      ensures Owned(step, o, game) <==> Owned(db, o, game)
      ensures Owned(db, o, game) ==> step.media[o] == db.media[o]
    {
    }
  }

  /** The renumbering counts up for each id, so media of one id stay in the order of the list. */
  lemma {:induction false} DistributeKeepsOrder(db: Db, game: nat, items: seq<nat>, dest: map<nat, nat>,
    counts: map<nat, nat>)
    requires Distribute(db, game, items, dest, counts).Just?
    requires forall i, j :: 0 <= i < j < |items| ==> items[i] != items[j]
    requires forall k :: 0 <= k < |items| ==> items[k] in db.media
    ensures var after := Distribute(db, game, items, dest, counts).value;
      && after.media.Keys == db.media.Keys && after.banks == db.banks
      && (forall m :: m in db.media && m !in items ==> after.media[m] == db.media[m])
      && (forall k :: 0 <= k < |items| ==>
            after.media[items[k]].In? && after.media[items[k]].ordinal >= CountOf(counts, RaOf(db, items[k])))
      && (forall i, j :: 0 <= i < j < |items| && RaOf(db, items[i]) == RaOf(db, items[j]) ==>
            after.media[items[i]].ordinal < after.media[items[j]].ordinal)
    decreases |items|
  {
    hide Constraints, RaOf;
    if items != [] {
      var ra, rest := RaOf(db, items[0]), items[1..];
      var count := CountOf(counts, ra);
      var step := WithPlace(db, items[0], dest[ra], count);
      assert forall k :: 0 <= k < |rest| ==> rest[k] == items[k + 1];
      DistributeKeepsOrder(step, game, rest, dest, counts[ra := count + 1]);
      var after := Distribute(db, game, items, dest, counts).value;
      assert after == Distribute(step, game, rest, dest, counts[ra := count + 1]).value;
      assert items[0] !in rest && after.media[items[0]] == In(dest[ra], count);
      forall k | 0 < k < |items|
        ensures after.media[items[k]].In? && after.media[items[k]].ordinal >= CountOf(counts, RaOf(db, items[k]))
        ensures RaOf(db, items[k]) == ra ==> after.media[items[k]].ordinal > count
      {
        assert items[k] == rest[k - 1];
        RaOfReads(db, step, items[k]);
      }
      forall i, j | 0 <= i < j < |items| && RaOf(db, items[i]) == RaOf(db, items[j])
        ensures after.media[items[i]].ordinal < after.media[items[j]].ordinal
      {
        if i > 0 {
          assert items[i] == rest[i - 1] && items[j] == rest[j - 1];
          RaOfReads(db, step, items[i]);
          RaOfReads(db, step, items[j]);
        }
      }
    }
  }

  lemma FirstItem(db: Db, game: nat, items: seq<nat>, dest: map<nat, nat>, counts: map<nat, nat>, anchor: nat)
    requires Placing(db, game, items, dest, counts, anchor) && items != []
    ensures Listed(db, items[0], game) && NoProfilesOn(db, items[0]) && RaOf(db, items[0]) in dest
    ensures dest[RaOf(db, items[0])] in db.games && items[0] !in items[1..]
  {
    hide RaOf;
    assert forall k :: 0 <= k < |items[1..]| ==> items[1..][k] == items[k + 1];
  }

  lemma PlacedAll(db: Db, game: nat, dest: map<nat, nat>, counts: map<nat, nat>, anchor: nat, ra: nat)
    requires Placing(db, game, [], dest, counts, anchor) && Filled(db, [], dest, counts) && ra in dest
    ensures exists n :: Contiguous(db, dest[ra], n)
  {
    var n := CountOf(counts, ra);
    assert Contiguous(db, dest[ra], n);
  }

  lemma DistributedChains(db: Db, step: Db, after: Db, items: seq<nat>, dest: map<nat, nat>, ra: nat)
    requires items != [] && ra == RaOf(db, items[0]) && ra in dest && items[0] in db.media && items[0] !in items[1..]
    requires step.media.Keys == db.media.Keys && step == db.(media := step.media)
    requires Owned(step, items[0], dest[ra])
    requires forall m :: m in db.media && m != items[0] ==> step.media[m] == db.media[m]
    requires Distributed(step, after, items[1..], dest)
    ensures Distributed(db, after, items, dest)
  {
    hide RaOf;
    forall k | 0 <= k < |items|
      ensures RaOf(db, items[k]) in dest && Owned(after, items[k], dest[RaOf(db, items[k])])
    {
      RaOfReads(db, step, items[k]);
      if k > 0 {
        assert items[k] == items[1..][k - 1];
      } else {
        assert after.media[items[0]] == step.media[items[0]];
      }
    }
    assert items == [items[0]] + items[1..];
  }

  // ---- the first loop ----

  /** Nobody holds an id that a new game would be made for. */
  ghost predicate NewIdsFree(db: Db, items: seq<nat>, dest: map<nat, nat>) {
    forall k, h :: 0 <= k < |items| && RaOf(db, items[k]) !in dest && h in db.games ==>
      db.games[h].ra != RaOf(db, items[k])
  }

  /** Nothing but new rows of games. */
  ghost predicate OnlyAdds(db: Db, made: Db, dest: map<nat, nat>, all: map<nat, nat>) {
    && made == db.(games := made.games)
    && (forall g :: g in db.games ==> g in made.games && made.games[g] == db.games[g])
    && (forall a :: a in dest ==> a in all && all[a] == dest[a])
  }

  /** New games for the ids of the items, and nothing else changed. */
  ghost predicate Made(db: Db, made: Db, items: seq<nat>, dest: map<nat, nat>, all: map<nat, nat>) {
    && OnlyAdds(db, made, dest, all) && OneToOne(made, all)
    && (forall a :: a in all && a !in dest ==> NewId(db, made, items, all, a))
    && (forall k :: 0 <= k < |items| ==> RaOf(db, items[k]) in all)
    && (forall g :: g in made.games && g !in db.games ==> exists a :: a in all && a !in dest && all[a] == g)
  }

  /** The game made for this id, which one of the items has. */
  ghost predicate NewId(db: Db, made: Db, items: seq<nat>, all: map<nat, nat>, a: nat)
    requires a in all
  {
    && all[a] in made.games && all[a] !in db.games && made.games[all[a]] == Game(a, IDENTIFIED)
    && exists k :: 0 <= k < |items| && RaOf(db, items[k]) == a
  }

  lemma NewGameKeepsExactly(db: Db, ra: nat)
    requires Constraints(db) && ra != 0
    ensures Constraints(WithGame(db, NextGame(db), ra, IDENTIFIED)) <==>
      forall h :: h in db.games ==> db.games[h].ra != ra
  {
    var id := NextGame(db);
    var after := WithGame(db, id, ra, IDENTIFIED);
    assert forall h :: h in db.games ==> h in after.games && after.games[h] == db.games[h];
    if h :| h in db.games && db.games[h].ra == ra {
      assert after.games[h].ra == after.games[id].ra;
      assert !UniqueRa(after);
    }
  }

  lemma OneMoreGame(db: Db, items: seq<nat>, dest: map<nat, nat>)
    requires items != [] && RaOf(db, items[0]) !in dest && OneToOne(db, dest)
    requires forall h :: h in db.games ==> db.games[h].ra != RaOf(db, items[0])
    ensures var ra := RaOf(db, items[0]);
      var step, more := WithGame(db, NextGame(db), ra, IDENTIFIED), dest[ra := NextGame(db)];
      && OneToOne(step, more)
      && (NewIdsFree(step, items[1..], more) <==> NewIdsFree(db, items, dest))
  {
    hide RaOf;
    var ra := RaOf(db, items[0]);
    var step, more := WithGame(db, NextGame(db), ra, IDENTIFIED), dest[ra := NextGame(db)];
    forall k | 0 <= k < |items| ensures RaOf(step, items[k]) == RaOf(db, items[k]) {
      RaOfReads(db, step, items[k]);
    }
    if NewIdsFree(db, items, dest) {
      forall k, h | 0 <= k < |items[1..]| && RaOf(step, items[1..][k]) !in more && h in step.games
        ensures step.games[h].ra != RaOf(step, items[1..][k])
      {
        assert items[1..][k] == items[k + 1];
      }
    }
    if NewIdsFree(step, items[1..], more) {
      forall k, h | 0 <= k < |items| && RaOf(db, items[k]) !in dest && h in db.games
        ensures db.games[h].ra != RaOf(db, items[k])
      {
        if k > 0 { assert items[1..][k - 1] == items[k] && h in step.games; }
      }
    }
  }

  lemma SkippedGame(db: Db, items: seq<nat>, dest: map<nat, nat>)
    requires items != [] && RaOf(db, items[0]) in dest
    ensures NewIdsFree(db, items[1..], dest) <==> NewIdsFree(db, items, dest)
  {
    hide RaOf;
    forall k, h | NewIdsFree(db, items[1..], dest) && 0 <= k < |items| && RaOf(db, items[k]) !in dest && h in db.games
      ensures db.games[h].ra != RaOf(db, items[k])
    {
      assert items[1..][k - 1] == items[k];
    }
    forall k, h | NewIdsFree(db, items, dest) && 0 <= k < |items[1..]| && RaOf(db, items[1..][k]) !in dest && h in db.games
      ensures db.games[h].ra != RaOf(db, items[1..][k])
    {
      assert items[1..][k] == items[k + 1];
    }
  }

  /** The first loop succeeds exactly when nobody holds any of the new ids. */
  lemma {:induction false} MakeGamesExactly(db: Db, items: seq<nat>, dest: map<nat, nat>)
    requires Constraints(db) && OneToOne(db, dest)
    requires forall k :: 0 <= k < |items| ==> RaOf(db, items[k]) != 0
    ensures MakeGames(db, items, dest).Just? <==> NewIdsFree(db, items, dest)
    ensures MakeGames(db, items, dest).Just? ==>
      var (made, all) := MakeGames(db, items, dest).value;
      Constraints(made) && Made(db, made, items, dest, all)
    decreases |items|
  {
    hide Constraints, Made, NewIdsFree, RaOf, OneToOne;
    if items == [] {
      NothingMade(db, dest);
    } else {
      var ra := RaOf(db, items[0]);
      assert forall k :: 0 <= k < |items[1..]| ==> items[1..][k] == items[k + 1];
      if ra in dest {
        SkippedGame(db, items, dest);
        MakeGamesExactly(db, items[1..], dest);
        if MakeGames(db, items[1..], dest).Just? {
          MadeSkips(db, MakeGames(db, items[1..], dest).value.0, items, dest, MakeGames(db, items[1..], dest).value.1);
        }
      } else {
        NewGameKeepsExactly(db, ra);
        if forall h :: h in db.games ==> db.games[h].ra != ra {
          var step, more := WithGame(db, NextGame(db), ra, IDENTIFIED), dest[ra := NextGame(db)];
          OneMoreGame(db, items, dest);
          forall k | 0 <= k < |items[1..]| ensures RaOf(step, items[1..][k]) != 0 {
            RaOfReads(db, step, items[1..][k]);
          }
          MakeGamesExactly(step, items[1..], more);
          if MakeGames(step, items[1..], more).Just? {
            MadeChains(db, step, MakeGames(step, items[1..], more).value.0, items, dest,
              MakeGames(step, items[1..], more).value.1);
          }
        } else {
          FirstIdTaken(db, items, dest);
        }
      }
    }
  }

  lemma FirstIdTaken(db: Db, items: seq<nat>, dest: map<nat, nat>)
    requires items != [] && RaOf(db, items[0]) !in dest
    requires exists h :: h in db.games && db.games[h].ra == RaOf(db, items[0])
    ensures !NewIdsFree(db, items, dest)
  {
  }

  lemma NothingMade(db: Db, dest: map<nat, nat>)
    requires OneToOne(db, dest)
    ensures Made(db, db, [], dest, dest) && NewIdsFree(db, [], dest)
  {
  }

  lemma MadeSkips(db: Db, made: Db, items: seq<nat>, dest: map<nat, nat>, all: map<nat, nat>)
    requires items != [] && RaOf(db, items[0]) in dest && Made(db, made, items[1..], dest, all)
    ensures Made(db, made, items, dest, all)
  {
    hide RaOf, OneToOne;
    assert forall k :: 0 <= k < |items[1..]| ==> items[1..][k] == items[k + 1];
    forall k | 0 <= k < |items|
      ensures RaOf(db, items[k]) in all
    {
      if k > 0 { assert items[k] == items[1..][k - 1]; }
    }
  }

  /** The database after the game for the first item was made, and the destinations with it. */
  ghost predicate FirstMade(db: Db, step: Db, items: seq<nat>, dest: map<nat, nat>, more: map<nat, nat>) {
    && items != [] && RaOf(db, items[0]) !in dest
    && step == WithGame(db, NextGame(db), RaOf(db, items[0]), IDENTIFIED)
    && more == dest[RaOf(db, items[0]) := NextGame(db)]
  }

  lemma MadeIds(db: Db, step: Db, made: Db, items: seq<nat>, dest: map<nat, nat>, more: map<nat, nat>,
    all: map<nat, nat>, a: nat)
    requires FirstMade(db, step, items, dest, more) && Made(step, made, items[1..], more, all)
    requires a in all && a !in dest
    ensures NewId(db, made, items, all, a)
  {
    hide RaOf, OneToOne;
    var ra := RaOf(db, items[0]);
    if a == ra {
      assert ra in more && all[ra] == more[ra] == NextGame(db);
      assert NextGame(db) in step.games;
    } else {
      assert a !in more;
      var k :| 0 <= k < |items[1..]| && RaOf(step, items[1..][k]) == a;
      assert items[1..][k] == items[k + 1];
      RaOfReads(db, step, items[k + 1]);
    }
  }

  lemma MadeItems(db: Db, step: Db, made: Db, items: seq<nat>, dest: map<nat, nat>, more: map<nat, nat>,
    all: map<nat, nat>, k: nat)
    requires FirstMade(db, step, items, dest, more) && Made(step, made, items[1..], more, all) && k < |items|
    ensures RaOf(db, items[k]) in all
  {
    hide RaOf, OneToOne;
    RaOfReads(db, step, items[k]);
    if k > 0 {
      assert items[k] == items[1..][k - 1];
    } else {
      assert RaOf(db, items[0]) in more;
    }
  }

  lemma MadeNewGames(db: Db, step: Db, made: Db, items: seq<nat>, dest: map<nat, nat>, more: map<nat, nat>,
    all: map<nat, nat>, g: nat)
    requires FirstMade(db, step, items, dest, more) && Made(step, made, items[1..], more, all)
    requires g in made.games && g !in db.games
    ensures exists a :: a in all && a !in dest && all[a] == g
  {
    hide RaOf, OneToOne;
    var ra := RaOf(db, items[0]);
    if g == NextGame(db) {
      assert ra in more && ra in all && all[ra] == g;
    } else {
      var a :| a in all && a !in more && all[a] == g;
      assert a !in dest;
    }
  }

  lemma MadeChains(db: Db, step: Db, made: Db, items: seq<nat>, dest: map<nat, nat>, all: map<nat, nat>)
    requires items != [] && RaOf(db, items[0]) !in dest
    requires step == WithGame(db, NextGame(db), RaOf(db, items[0]), IDENTIFIED)
    requires Made(step, made, items[1..], dest[RaOf(db, items[0]) := NextGame(db)], all)
    ensures Made(db, made, items, dest, all)
  {
    hide RaOf, OneToOne, NewId, OnlyAdds;
    var more := dest[RaOf(db, items[0]) := NextGame(db)];
    forall a | a in all && a !in dest
      ensures NewId(db, made, items, all, a)
    {
      MadeIds(db, step, made, items, dest, more, all, a);
    }
    forall k | 0 <= k < |items|
      ensures RaOf(db, items[k]) in all
    {
      MadeItems(db, step, made, items, dest, more, all, k);
    }
    forall g | g in made.games && g !in db.games
      ensures exists a :: a in all && a !in dest && all[a] == g
    {
      MadeNewGames(db, step, made, items, dest, more, all, g);
    }
    AddsChain(db, step, made, dest, more, all);
  }

  lemma AddsChain(db: Db, step: Db, made: Db, dest: map<nat, nat>, more: map<nat, nat>, all: map<nat, nat>)
    requires OnlyAdds(db, step, dest, more) && OnlyAdds(step, made, more, all)
    ensures OnlyAdds(db, made, dest, all)
  {
  }

  // ---- the anchors ----

  /** The medium a new game starts from: the first of its id; the old anchor for the old game. */
  ghost function StartOf(db: Db, items: seq<nat>, id: nat): nat
    decreases |items|
  {
    if items == [] then 0 else if RaOf(db, items[0]) == id then items[0] else StartOf(db, items[1..], id)
  }

  lemma {:induction false} StartIsListed(db: Db, items: seq<nat>, id: nat)
    requires exists k :: 0 <= k < |items| && RaOf(db, items[k]) == id
    ensures StartOf(db, items, id) in items && RaOf(db, StartOf(db, items, id)) == id
    decreases |items|
  {
    if RaOf(db, items[0]) != id {
      var k :| 0 <= k < |items| && RaOf(db, items[k]) == id;
      assert items[1..][k - 1] == items[k];
      StartIsListed(db, items[1..], id);
    }
  }

  /** It is the first of its id. */
  lemma {:induction false} StartIsFirst(db: Db, items: seq<nat>, id: nat, k: nat)
    requires k < |items| && RaOf(db, items[k]) == id
    ensures exists i :: 0 <= i <= k && items[i] == StartOf(db, items, id) && RaOf(db, items[i]) == id
    decreases |items|
  {
    if RaOf(db, items[0]) != id {
      assert items[1..][k - 1] == items[k];
      StartIsFirst(db, items[1..], id, k - 1);
      var i :| 0 <= i <= k - 1 && items[1..][i] == StartOf(db, items[1..], id) && RaOf(db, items[1..][i]) == id;
      assert items[i + 1] == items[1..][i];
    }
  }

  ghost function AnchorRow(db: Db, items: seq<nat>, id: nat, anchorId: nat, anchor: Profile): Profile {
    if id == anchorId then Profile(anchor.media, anchor.index, true)
    else Profile(StartOf(db, items, id), FirstBank(db, StartOf(db, items, id)), true)
  }

  /** INSERT INTO launch_profiles ... for every destination, in the order of the ids. */
  ghost function InsertAnchors(db: Db, ids: seq<nat>, dest: map<nat, nat>, items: seq<nat>, anchorId: nat,
    anchor: Profile): Option<Db>
    decreases |ids|
  {
    if ids == [] then Just(db)
    else if ids[0] !in dest || Slot(dest[ids[0]], 0) in db.profiles then Nil
    else
      var row := AnchorRow(db, items, ids[0], anchorId, anchor);
      match Checked(db.(profiles := db.profiles[Slot(dest[ids[0]], 0) := row]))
      case Nil => Nil
      case Just(next) => InsertAnchors(next, ids[1..], dest, items, anchorId, anchor)
  }

  /** A row that may be the anchor of this game. */
  predicate FitsAnchor(db: Db, game: nat, row: Profile) {
    row.anchor && Owned(db, row.media, game) && BankKey(row.media, row.index) in db.banks
  }

  lemma AnchorKeeps(db: Db, game: nat, row: Profile)
    requires Constraints(db) && game in db.games && SlotsOf(db, game) == {} && FitsAnchor(db, game, row)
    ensures Constraints(db.(profiles := db.profiles[Slot(game, 0) := row]))
  {
    var after := db.(profiles := db.profiles[Slot(game, 0) := row]);
    assert OneAnchorEach(after) by {
      hide UniqueRa, OwnersExist, UniqueOrdinals, BanksBelong, ProfilesRefer;
      OnlyAnchor(db, game, row);
    }
    assert ProfilesRefer(after) by {
      hide UniqueRa, OwnersExist, UniqueOrdinals, BanksBelong, OneAnchorEach;
    }
    hide ProfilesRefer, OneAnchorEach;
  }

  lemma OnlyAnchor(db: Db, game: nat, row: Profile)
    requires OneAnchorEach(db) && SlotsOf(db, game) == {}
    ensures OneAnchorEach(db.(profiles := db.profiles[Slot(game, 0) := row]))
  {
    forall p | p in db.profiles ensures p.game != game {
      assert p !in SlotsOf(db, game);
    }
  }

  /** One anchor row for each listed destination, the rest as before. */
  ghost predicate Anchored(db: Db, after: Db, ids: seq<nat>, dest: map<nat, nat>, items: seq<nat>, anchorId: nat,
    anchor: Profile)
    requires forall k :: 0 <= k < |ids| ==> ids[k] in dest
  {
    && after == db.(profiles := after.profiles)
    && (forall k :: 0 <= k < |ids| ==>
          && Slot(dest[ids[k]], 0) in after.profiles
          && after.profiles[Slot(dest[ids[k]], 0)] == AnchorRow(db, items, ids[k], anchorId, anchor))
    && (forall p :: p in after.profiles && p !in db.profiles ==>
          exists k :: 0 <= k < |ids| && p == Slot(dest[ids[k]], 0))
    && (forall p :: p in db.profiles ==> p in after.profiles && after.profiles[p] == db.profiles[p])
  }

  ghost predicate Anchorable(db: Db, ids: seq<nat>, dest: map<nat, nat>, items: seq<nat>, anchorId: nat,
    anchor: Profile)
  {
    && OneToOne(db, dest)
    && (forall k :: 0 <= k < |ids| ==>
          && ids[k] in dest && SlotsOf(db, dest[ids[k]]) == {}
          && FitsAnchor(db, dest[ids[k]], AnchorRow(db, items, ids[k], anchorId, anchor)))
    && (forall i, j :: 0 <= i < j < |ids| ==> ids[i] != ids[j])
  }

  lemma AnchorRowReads(db: Db, after: Db, items: seq<nat>, id: nat, anchorId: nat, anchor: Profile)
    requires after.banks == db.banks
    ensures AnchorRow(after, items, id, anchorId, anchor) == AnchorRow(db, items, id, anchorId, anchor)
  {
    StartOfReads(db, after, items, id);
    RaOfReads(db, after, StartOf(db, items, id));
  }

  lemma {:induction false} StartOfReads(db: Db, after: Db, items: seq<nat>, id: nat)
    requires after.banks == db.banks
    ensures StartOf(after, items, id) == StartOf(db, items, id)
    decreases |items|
  {
    if items != [] {
      RaOfReads(db, after, items[0]);
      StartOfReads(db, after, items[1..], id);
    }
  }

  lemma AnchorableStep(db: Db, step: Db, ids: seq<nat>, dest: map<nat, nat>, items: seq<nat>, anchorId: nat,
    anchor: Profile, row: Profile)
    requires Anchorable(db, ids, dest, items, anchorId, anchor) && ids != []
    requires step == db.(profiles := db.profiles[Slot(dest[ids[0]], 0) := row])
    ensures Anchorable(step, ids[1..], dest, items, anchorId, anchor)
  {
    hide AnchorRow;
    forall k | 0 <= k < |ids[1..]|
      ensures ids[1..][k] in dest && SlotsOf(step, dest[ids[1..][k]]) == {}
      ensures FitsAnchor(step, dest[ids[1..][k]], AnchorRow(step, items, ids[1..][k], anchorId, anchor))
    {
      var id := ids[k + 1];
      assert ids[1..][k] == id && ids[0] != id;
      AnchorRowReads(db, step, items, id, anchorId, anchor);
      forall p | p in step.profiles ensures p.game != dest[id] {
        if p in db.profiles { assert p !in SlotsOf(db, dest[id]); }
      }
    }
  }

  lemma {:induction false} InsertAnchorsSucceeds(db: Db, ids: seq<nat>, dest: map<nat, nat>, items: seq<nat>,
    anchorId: nat, anchor: Profile)
    requires Constraints(db) && Anchorable(db, ids, dest, items, anchorId, anchor)
    ensures InsertAnchors(db, ids, dest, items, anchorId, anchor).Just?
    ensures var after := InsertAnchors(db, ids, dest, items, anchorId, anchor).value;
      Constraints(after) && Anchored(db, after, ids, dest, items, anchorId, anchor)
    decreases |ids|
  {
    hide Constraints, AnchorRow, FitsAnchor;
    if ids != [] {
      var game := dest[ids[0]];
      var row := AnchorRow(db, items, ids[0], anchorId, anchor);
      assert Slot(game, 0) !in SlotsOf(db, game);
      AnchorKeeps(db, game, row);
      var step := db.(profiles := db.profiles[Slot(game, 0) := row]);
      AnchorableStep(db, step, ids, dest, items, anchorId, anchor, row);
      InsertAnchorsSucceeds(step, ids[1..], dest, items, anchorId, anchor);
      AnchoredChains(db, step, InsertAnchors(step, ids[1..], dest, items, anchorId, anchor).value, ids, dest, items,
        anchorId, anchor);
    }
  }

  lemma AnchoredChains(db: Db, step: Db, after: Db, ids: seq<nat>, dest: map<nat, nat>, items: seq<nat>,
    anchorId: nat, anchor: Profile)
    requires ids != [] && forall k :: 0 <= k < |ids| ==> ids[k] in dest
    requires Slot(dest[ids[0]], 0) !in db.profiles
    requires step == db.(profiles :=
      db.profiles[Slot(dest[ids[0]], 0) := AnchorRow(db, items, ids[0], anchorId, anchor)])
    requires (forall k :: 0 <= k < |ids[1..]| ==> ids[1..][k] in dest)
      && Anchored(step, after, ids[1..], dest, items, anchorId, anchor)
    ensures Anchored(db, after, ids, dest, items, anchorId, anchor)
  {
    hide AnchorRow;
    forall k | 0 <= k < |ids|
      ensures Slot(dest[ids[k]], 0) in after.profiles
      ensures after.profiles[Slot(dest[ids[k]], 0)] == AnchorRow(db, items, ids[k], anchorId, anchor)
    {
      AnchorRowReads(db, step, items, ids[k], anchorId, anchor);
      if k > 0 {
        assert ids[k] == ids[1..][k - 1];
      } else {
        assert Slot(dest[ids[0]], 0) in step.profiles;
      }
    }
    forall p | p in after.profiles && p !in db.profiles
      ensures exists k :: 0 <= k < |ids| && p == Slot(dest[ids[k]], 0)
    {
      if p !in step.profiles {
        var k :| 0 <= k < |ids[1..]| && p == Slot(dest[ids[1..][k]], 0);
        assert ids[1..][k] == ids[k + 1];
      } else {
        assert p == Slot(dest[ids[0]], 0);
      }
    }
  }
}
