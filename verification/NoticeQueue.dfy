/** The priority queue of on-screen notices, timed by a 32-bit clock that wraps. */
module NoticeQueue {

  const WORD: int := 0x1_0000_0000
  const HALF_WORD: int := 0x8000_0000
  const MAX_QUEUED_NOTICES: nat := 64

  type u32 = n: int | 0 <= n < 0x1_0000_0000

  datatype Priority = Low | Normal | Important | Critical

  function Rank(p: Priority): nat {
    match p
    case Low => 0
    case Normal => 1
    case Important => 2
    case Critical => 3
  }

  // ---- the queue the code keeps ----

  datatype Notice = Notice(
    text: string,
    priority: Priority,
    remaining: u32,
    expires: u32,
    sequence: nat,
    active: bool)

  function Subtract(a: u32, b: u32): u32 {
    (a - b) % WORD
  }

  function Add(a: u32, b: u32): u32 {
    (a + b) % WORD
  }

  /** The cast of an unsigned difference to a signed one. */
  function Signed(n: u32): int {
    if n >= HALF_WORD then n - WORD else n
  }

  function Charged(n: Notice, now: u32): Notice {
    if !n.active then n
    else
      var left := Signed(Subtract(n.expires, now));
      n.(remaining := if left > 0 then left else 0, active := false)
  }

  /** The order of the ranking: higher priority first, then the older one. */
  predicate Before(p: Priority, sequence: nat, p': Priority, sequence': nat) {
    Rank(p) > Rank(p') || (p == p' && sequence < sequence')
  }

  /** Critical goes before important, important before normal, and normal before low. */
  predicate MoreUrgent(p: Priority, q: Priority) {
    || (p == Critical && q != Critical)
    || (p == Important && (q == Normal || q == Low))
    || (p == Normal && q == Low)
  }

  /** A notice goes before another when it is more urgent, or as urgent and older. */
  lemma UrgencyOrders(p: Priority, sequence: nat, q: Priority, sequence': nat)
    ensures Before(p, sequence, q, sequence') <==> MoreUrgent(p, q) || (p == q && sequence < sequence')
  {
  }

  // ---- the queue it stands for: unbounded time, no deadlines ----

  datatype Entry = Entry(text: string, priority: Priority, sequence: nat, duration: nat, charged: nat)

  datatype Ideal = Ideal(entries: seq<Entry>, next: nat, paused: bool, clock: nat)

  function Left(e: Entry): int {
    e.duration - e.charged
  }

  predicate Leads(entries: seq<Entry>, k: nat)
    requires k < |entries|
  {
    forall j :: 0 <= j < |entries| && j != k ==>
      Before(entries[k].priority, entries[k].sequence, entries[j].priority, entries[j].sequence)
  }

  function Spend(e: Entry, gap: nat): Entry {
    e.(charged := e.charged + (if gap < Left(e) then gap else if Left(e) > 0 then Left(e) else 0))
  }

  /** Time passes for the leading entry only. */
  function SpendLeader(entries: seq<Entry>, gap: nat): (spent: seq<Entry>)
    ensures |spent| == |entries|
  {
    seq(|entries|, k requires 0 <= k < |entries| =>
      if Leads(entries, k) then Spend(entries[k], gap) else entries[k])
  }

  function Unfinished(entries: seq<Entry>): (rest: seq<Entry>)
    ensures |rest| <= |entries|
  {
    if entries == [] then []
    else (if Left(entries[0]) > 0 then [entries[0]] else []) + Unfinished(entries[1..])
  }

  function Sample(i: Ideal, t: nat): Ideal
    requires i.paused || i.clock <= t
  {
    if i.paused then i
    else i.(entries := Unfinished(SpendLeader(i.entries, t - i.clock)), clock := t)
  }

  /** The one that overflow removes: lowest priority, and the newest of those. */
  predicate Trails(entries: seq<Entry>, k: nat)
    requires k < |entries|
  {
    forall j :: 0 <= j < |entries| && j != k ==>
      Before(entries[j].priority, entries[j].sequence, entries[k].priority, entries[k].sequence)
  }

  function Trimmed(entries: seq<Entry>): seq<Entry> {
    if |entries| <= MAX_QUEUED_NOTICES then entries
    else WithoutTrailing(entries)
  }

  function WithoutTrailing(entries: seq<Entry>): seq<Entry> {
    Without(entries, TrailingIndex(entries))
  }

  function Without(entries: seq<Entry>, k: nat): seq<Entry> {
    if k < |entries| then entries[..k] + entries[k + 1..] else entries
  }

  /** The index of the entry every other one comes before. */
  function TrailingIndex(entries: seq<Entry>): (k: nat)
    ensures entries != [] ==> k < |entries|
  {
    if |entries| <= 1 then 0
    else
      var k := TrailingIndex(entries[1..]) + 1;
      if Before(entries[0].priority, entries[0].sequence, entries[k].priority, entries[k].sequence) then k else 0
  }

  predicate Below(entries: seq<Entry>, limit: nat) {
    forall k :: 0 <= k < |entries| ==> entries[k].sequence < limit
  }

  predicate Increasing(entries: seq<Entry>) {
    forall j, k :: 0 <= j < k < |entries| ==> entries[j].sequence < entries[k].sequence
  }

  predicate Distinct(entries: seq<Entry>, next: nat) {
    Below(entries, next) && Increasing(entries)
  }

  lemma {:induction false} TrailingIndexTrails(entries: seq<Entry>, next: nat)
    requires entries != [] && Distinct(entries, next)
    ensures Trails(entries, TrailingIndex(entries))
  {
    if |entries| > 1 {
      var rest := entries[1..];
      assert Distinct(rest, next);
      TrailingIndexTrails(rest, next);
      var k := TrailingIndex(rest);
      forall j | 0 <= j < |entries| && j != TrailingIndex(entries)
        ensures var e, f := entries[j], entries[TrailingIndex(entries)];
          Before(e.priority, e.sequence, f.priority, f.sequence)
      {
        if j > 0 {
          assert rest[j - 1] == entries[j];
        }
      }
    }
  }

  function AddEntry(i: Ideal, text: string, priority: Priority, duration: nat, t: nat): Ideal
    requires i.paused || i.clock <= t
  {
    if text == "" || duration == 0 then i
    else
      var s := Sample(i, t);
      s.(entries := Trimmed(s.entries + [Entry(text, priority, s.next, duration, 0)]), next := s.next + 1)
  }

  function SetPaused(i: Ideal, paused: bool, t: nat): Ideal
    requires i.paused || i.clock <= t
  {
    if paused == i.paused then i
    else if paused then Sample(i, t).(paused := true)
    else i.(paused := false, clock := t)
  }

  // ---- how the two queues correspond ----

  predicate SameNotice(n: Notice, e: Entry) {
    && n.text == e.text && n.priority == e.priority && n.sequence == e.sequence
    && 0 < Left(e) <= e.duration < HALF_WORD
  }

  /** An active notice knows when it expires; the others know what they have left. */
  ghost predicate Timed(q: seq<Notice>, entries: seq<Entry>, clock: nat) {
    && |q| == |entries|
    && forall k :: 0 <= k < |q| ==>
        && SameNotice(q[k], entries[k])
        && (q[k].active ==> q[k].expires == (clock + Left(entries[k])) % WORD)
        && (!q[k].active ==> q[k].remaining == Left(entries[k]))
  }

  ghost predicate LeaderActive(q: seq<Notice>, entries: seq<Entry>) {
    |q| == |entries| && forall k :: 0 <= k < |q| ==> (q[k].active <==> Leads(entries, k))
  }

  ghost predicate NoneActive(q: seq<Notice>) {
    forall k :: 0 <= k < |q| ==> !q[k].active
  }

  ghost predicate Matches(q: seq<Notice>, i: Ideal) {
    && Distinct(i.entries, i.next)
    && Timed(q, i.entries, i.clock)
    && (if i.paused then NoneActive(q) else LeaderActive(q, i.entries))
    && |q| <= MAX_QUEUED_NOTICES
  }

  /** After the charging loop: nobody is active, and finished notices show zero. */
  ghost predicate Settled(q: seq<Notice>, entries: seq<Entry>) {
    |q| == |entries| && forall k :: 0 <= k < |q| ==> SettledOne(q[k], entries[k])
  }

  ghost predicate SettledOne(n: Notice, e: Entry) {
    && n.text == e.text && n.priority == e.priority && n.sequence == e.sequence && e.duration < HALF_WORD
    && !n.active && 0 <= Left(e) <= e.duration && n.remaining == Left(e)
  }

  /**
   * The heart of the wrapping clock: the time left, computed from a wrapped deadline and a wrapped
   * reading and then clamped at zero, is right exactly when the true difference fits a signed word.
   */
  lemma WrappedDifferenceExact(clock: nat, left: u32, gap: nat)
    ensures var d := Signed(Subtract((clock + left) % WORD, (clock + gap) % WORD));
      (if d > 0 then d else 0) == (if left > gap then left - gap else 0)
      <==> left - gap < HALF_WORD && (gap < left || (gap - left) % WORD <= HALF_WORD)
  {
    var d := left - gap;
    WrapDifference(clock + left, clock + gap);
    if d > 0 {
      assert d % WORD == d;
    } else {
      NegativeModulo(gap - left);
    }
  }

  lemma WrapDifference(a: nat, b: nat)
    ensures (a % WORD - b % WORD) % WORD == (a - b) % WORD
  {
    var qa, qb := a / WORD, b / WORD;
    assert a == qa * WORD + a % WORD && b == qb * WORD + b % WORD;
    assert a - b == (qa - qb) * WORD + (a % WORD - b % WORD);
    ModuloShift(a % WORD - b % WORD, qa - qb);
  }

  lemma ModuloShift(x: int, q: int)
    ensures (q * WORD + x) % WORD == x % WORD
  {
    var r, k := x % WORD, x / WORD;
    assert q * WORD + x == (q + k) * WORD + r;
    ModuloUnique(q * WORD + x, q + k, r);
  }

  lemma ModuloUnique(x: int, q: int, r: int)
    requires x == q * WORD + r && 0 <= r < WORD
    ensures x % WORD == r
  {
  }

  lemma NegativeModulo(n: nat)
    ensures (0 - n) % WORD == if n % WORD == 0 then 0 else WORD - n % WORD
  {
    var q, r := n / WORD, n % WORD;
    if r == 0 {
      ModuloUnique(0 - n, 0 - q, 0);
    } else {
      ModuloUnique(0 - n, 0 - q - 1, WORD - r);
    }
  }

  lemma ChargeOne(n: Notice, e: Entry, clock: nat, t: nat)
    requires clock <= t < clock + HALF_WORD && SameNotice(n, e)
    requires n.active && n.expires == (clock + Left(e)) % WORD
    ensures Charged(n, t % WORD).remaining == Left(Spend(e, t - clock))
  {
    WrappedDifferenceExact(clock, Left(e), t - clock);
    assert t == clock + (t - clock);
    if t - clock >= Left(e) {
      SmallModulo(t - clock - Left(e));
    }
  }

  lemma SmallModulo(n: nat)
    requires n < WORD
    ensures n % WORD == n
  {
  }

  lemma ChargingSettles(q: seq<Notice>, charged: seq<Notice>, entries: seq<Entry>, clock: nat, t: nat)
    requires Timed(q, entries, clock) && clock <= t < clock + HALF_WORD
    requires clock == t || LeaderActive(q, entries)
    requires |charged| == |q| && forall k :: 0 <= k < |q| ==> charged[k] == Charged(q[k], t % WORD)
    ensures Settled(charged, SpendLeader(entries, t - clock))
  {
    hide Leads, Charged, Spend;
    var spent := SpendLeader(entries, t - clock);
    forall k | 0 <= k < |q|
      ensures SettledOne(charged[k], spent[k])
    {
      ChargeEither(q[k], entries[k], clock, t);
      NoTimeNoSpend(entries[k]);
    }
  }

  lemma NoTimeNoSpend(e: Entry)
    requires Left(e) > 0
    ensures Spend(e, 0) == e
  {
  }

  lemma ChargeEither(n: Notice, e: Entry, clock: nat, t: nat)
    requires clock <= t < clock + HALF_WORD && SameNotice(n, e)
    requires if n.active then n.expires == (clock + Left(e)) % WORD else n.remaining == Left(e)
    ensures SettledOne(Charged(n, t % WORD), if n.active then Spend(e, t - clock) else e)
  {
    if n.active {
      ChargeOne(n, e, clock, t);
    }
  }

  function Kept(q: seq<Notice>): seq<Notice> {
    if q == [] then [] else Kept(q[..|q| - 1]) + (if q[|q| - 1].remaining != 0 then [q[|q| - 1]] else [])
  }

  lemma {:induction false} UnfinishedConcat(a: seq<Entry>, b: seq<Entry>)
    ensures Unfinished(a + b) == Unfinished(a) + Unfinished(b)
  {
    if a == [] {
      assert a + b == b;
    } else {
      assert (a + b)[1..] == a[1..] + b;
      UnfinishedConcat(a[1..], b);
    }
  }

  lemma UnfinishedLast(entries: seq<Entry>, last: Entry)
    ensures Unfinished(entries + [last]) == Unfinished(entries) + (if Left(last) > 0 then [last] else [])
  {
    UnfinishedConcat(entries, [last]);
    assert [last][1..] == [];
  }

  lemma {:induction false} UnfinishedBelow(entries: seq<Entry>, limit: nat)
    requires Below(entries, limit) && Increasing(entries)
    ensures Below(Unfinished(entries), limit) && Increasing(Unfinished(entries))
    decreases |entries|
  {
    if entries != [] {
      var n := |entries| - 1;
      UnfinishedBelow(entries[..n], entries[n].sequence);
      assert entries == entries[..n] + [entries[n]];
      UnfinishedLast(entries[..n], entries[n]);
    }
  }

  lemma {:induction false} KeepingSettles(q: seq<Notice>, entries: seq<Entry>)
    requires Settled(q, entries)
    ensures Settled(Kept(q), Unfinished(entries))
    ensures forall k :: 0 <= k < |Kept(q)| ==> Kept(q)[k].remaining > 0
    decreases |q|
  {
    if q != [] {
      var n := |q| - 1;
      KeepingSettles(q[..n], entries[..n]);
      assert entries == entries[..n] + [entries[n]];
      UnfinishedLast(entries[..n], entries[n]);
    }
  }

  class Overlay {
    var notices: seq<Notice>
    var nextSequence: nat
    var paused: bool
    ghost var ideal: Ideal

    ghost predicate Valid()
      reads this
    {
      ideal.paused == paused && ideal.next == nextSequence && Matches(notices, ideal)
    }

    /** now is the wrapped reading of the true time t, and readings are not too far apart. */
    ghost predicate Reading(now: u32, t: nat)
      reads this
    {
      now == t % WORD && (!paused ==> ideal.clock <= t < ideal.clock + HALF_WORD)
    }

    constructor (ghost t: nat)
      ensures Valid() && notices == [] && !paused && ideal == Ideal([], 1, false, t)
    {
      notices, nextSequence, paused := [], 1, false;
      ideal := Ideal([], 1, false, t);
    }

    method RebalanceNotices(now: u32, ghost t: nat)
      requires ideal.paused == paused && Reading(now, t)
      requires !paused ==> Distinct(ideal.entries, ideal.next) && Timed(notices, ideal.entries, ideal.clock)
      requires !paused ==> ideal.clock == t || LeaderActive(notices, ideal.entries)
      modifies this`notices, this`ideal
      ensures old(paused) ==> unchanged(this)
      ensures !old(paused) ==>
        && ideal == Sample(old(ideal), t)
        && Distinct(ideal.entries, ideal.next)
        && Timed(notices, ideal.entries, ideal.clock) && LeaderActive(notices, ideal.entries)
        && |notices| <= old(|notices|)
    {
      hide Timed, LeaderActive, Settled, Distinct, Leads, Kept, Unfinished, SpendLeader, Charged;
      if paused {
        return;
      }
      ghost var before, gap := notices, t - ideal.clock;
      ChargeActive(now);
      ChargingSettles(before, notices, ideal.entries, ideal.clock, t);
      SpendingKeepsOrder(ideal.entries, gap, ideal.next);
      KeepingSettles(notices, SpendLeader(ideal.entries, gap));
      var kept := RemoveFinished();
      notices := kept;
      ideal := Sample(ideal, t);
      ActivateFirst(now, t);
    }

    method ChargeActive(now: u32)
      modifies this`notices
      ensures |notices| == old(|notices|)
      ensures forall k :: 0 <= k < |notices| ==> notices[k] == Charged(old(notices)[k], now)
    {
      ghost var before := notices;
      for index := 0 to |notices|
        invariant |notices| == |before|
        invariant forall k :: 0 <= k < index ==> notices[k] == Charged(before[k], now)
        invariant forall k :: index <= k < |notices| ==> notices[k] == before[k]
      {
        if notices[index].active {
          var left := Signed(Subtract(notices[index].expires, now));
          notices := notices[index := notices[index].(remaining := if left > 0 then left else 0, active := false)];
        }
      }
    }

    method RemoveFinished() returns (kept: seq<Notice>)
      ensures kept == Kept(notices) && |kept| <= |notices|
    {
      kept := [];
      for index := 0 to |notices|
        invariant kept == Kept(notices[..index]) && |kept| <= index
      {
        assert notices[..index + 1][..index] == notices[..index];
        if notices[index].remaining != 0 {
          kept := kept + [notices[index]];
        }
      }
      assert notices[..|notices|] == notices;
    }

    /** The ranking: the notice every other one comes after is shown, with a fresh deadline. */
    method ActivateFirst(now: u32, ghost t: nat)
      requires now == t % WORD && Distinct(ideal.entries, ideal.next)
      requires Settled(notices, ideal.entries) && forall k :: 0 <= k < |notices| ==> notices[k].remaining > 0
      modifies this`notices
      ensures Timed(notices, ideal.entries, t) && LeaderActive(notices, ideal.entries)
      ensures |notices| == old(|notices|)
    {
      if notices == [] {
        return;
      }
      var best := 0;
      for index := 1 to |notices|
        invariant 0 <= best < index
        invariant forall j :: 0 <= j < index && j != best ==>
          Before(notices[best].priority, notices[best].sequence, notices[j].priority, notices[j].sequence)
      {
        if !Before(notices[best].priority, notices[best].sequence, notices[index].priority, notices[index].sequence) {
          best := index;
        }
      }
      ghost var was := notices;
      notices := notices[best := notices[best].(active := true, expires := Add(now, notices[best].remaining))];
      assert Leads(ideal.entries, best);
      SumWraps(t, was[best].remaining);
      forall k | 0 <= k < |notices| && k != best
        ensures !Leads(ideal.entries, k)
      {
        assert Before(was[best].priority, was[best].sequence, was[k].priority, was[k].sequence);
      }
    }

    method AddNotice(text: string, now: u32, duration: u32, priority: Priority, ghost t: nat)
      requires Valid() && Reading(now, t) && duration < HALF_WORD
      modifies this
      ensures Valid() && paused == old(paused)
      ensures ideal == AddEntry(old(ideal), text, priority, duration, t)
    {
      if text == "" || duration == 0 {
        return;
      }
      if !paused {
        RebalanceNotices(now, t);
      }
      PushNotice(text, now, duration, priority, t);
      if |notices| > MAX_QUEUED_NOTICES {
        DropTrailing();
      }
    }

    /** The append and the second rebalancing, at the same instant as the first. */
    method PushNotice(text: string, now: u32, duration: u32, priority: Priority, ghost t: nat)
      requires Valid() && Reading(now, t) && 0 < duration < HALF_WORD && (!paused ==> ideal.clock == t)
      modifies this
      ensures paused == old(paused) && ideal.paused == paused && ideal.next == nextSequence
      ensures ideal == old(ideal).(
        entries := old(ideal).entries + [Entry(text, priority, old(ideal).next, duration, 0)],
        next := old(ideal).next + 1)
      ensures Distinct(ideal.entries, ideal.next) && Timed(notices, ideal.entries, ideal.clock)
      ensures if paused then NoneActive(notices) else LeaderActive(notices, ideal.entries)
      ensures |notices| <= MAX_QUEUED_NOTICES + 1
    {
      hide Timed, LeaderActive, NoneActive, Distinct, Unfinished, SpendLeader, Matches;
      MatchParts(notices, ideal);
      ghost var entry := Entry(text, priority, ideal.next, duration, 0);
      ghost var before := notices;
      var notice := Notice(text, priority, duration, 0, nextSequence, false);
      nextSequence := nextSequence + 1;
      notices := notices + [notice];
      AppendingKeepsOrder(ideal.entries, entry);
      AppendingKeepsTimes(before, notice, ideal.entries, entry, ideal.clock);
      ideal := ideal.(entries := ideal.entries + [entry], next := ideal.next + 1);
      ghost var grown := ideal;
      if !paused {
        TimedHaveTimeLeft(notices, ideal.entries, ideal.clock);
        RebalanceNotices(now, t);
        NoTimeNoChange(grown.entries);
      }
    }

    /** Overflow: the lowest and, among those, the newest notice goes; the active one never does. */
    method DropTrailing()
      requires ideal.paused == paused && ideal.next == nextSequence && |notices| == MAX_QUEUED_NOTICES + 1
      requires Distinct(ideal.entries, ideal.next) && Timed(notices, ideal.entries, ideal.clock)
      requires if paused then NoneActive(notices) else LeaderActive(notices, ideal.entries)
      modifies this`notices, this`ideal
      ensures Valid() && ideal == old(ideal).(entries := WithoutTrailing(old(ideal).entries))
      ensures !paused ==> forall n :: n in old(notices) && n.active ==> n in notices
    {
      ghost var entries := ideal.entries;
      hide Leads, Timed, LeaderActive, NoneActive;
      SameOrder(notices, entries, ideal.clock);
      var drop := LowestNewest();
      assert Trails(entries, drop);
      TrailingIndexTrails(entries, ideal.next);
      OneTrails(entries, drop, TrailingIndex(entries));
      DroppingKeepsLeader(entries, drop, ideal.next);
      DroppingKeepsMatch(notices, entries, drop, ideal.clock);
      notices := notices[..drop] + notices[drop + 1..];
      ideal := ideal.(entries := Without(entries, drop));
    }

    method LowestNewest() returns (drop: nat)
      requires notices != []
      requires forall j, k :: 0 <= j < k < |notices| ==> notices[j].sequence != notices[k].sequence
      ensures drop < |notices|
      ensures forall j :: 0 <= j < |notices| && j != drop ==>
        Before(notices[j].priority, notices[j].sequence, notices[drop].priority, notices[drop].sequence)
    {
      drop := 0;
      for index := 1 to |notices|
        invariant 0 <= drop < index
        invariant forall j :: 0 <= j < index && j != drop ==>
          Before(notices[j].priority, notices[j].sequence, notices[drop].priority, notices[drop].sequence)
      {
        if Rank(notices[index].priority) < Rank(notices[drop].priority)
          || (notices[index].priority == notices[drop].priority && notices[index].sequence > notices[drop].sequence) {
          drop := index;
        }
      }
    }

    method SetNoticesPaused(pause: bool, now: u32, ghost t: nat)
      requires Valid() && Reading(now, t)
      modifies this
      ensures Valid() && paused == pause
      ensures ideal == SetPaused(old(ideal), pause, t)
    {
      hide Leads, Unfinished, SpendLeader, Distinct;
      if pause == paused {
        return;
      }
      if pause {
        RebalanceNotices(now, t);
        FreezingSettles(notices, ideal.entries, t);
        FreezeActive(now);
        paused := true;
        ideal := ideal.(paused := true);
      } else {
        paused := false;
        ideal := ideal.(paused := false, clock := t);
        ghost var resumed := ideal;
        RebalanceNotices(now, t);
        NoTimeNoChange(resumed.entries);
      }
    }

    method FreezeActive(now: u32)
      modifies this`notices
      ensures |notices| == old(|notices|)
      ensures forall k :: 0 <= k < |notices| ==> notices[k] == Frozen(old(notices)[k], now)
    {
      ghost var before := notices;
      for index := 0 to |notices|
        invariant |notices| == |before|
        invariant forall k :: index <= k < |notices| ==> notices[k] == before[k]
        invariant forall k :: 0 <= k < index ==> notices[k] == Frozen(before[k], now)
      {
        if notices[index].active {
          notices := notices[index :=
            notices[index].(remaining := Subtract(notices[index].expires, now), active := false)];
        }
      }
    }

    /** What is on screen: nothing while paused, otherwise the leading notice and no other. */
    method VisibleNotices(now: u32, ghost t: nat) returns (visible: seq<Notice>)
      requires Valid() && Reading(now, t)
      modifies this
      ensures Valid() && ideal == Sample(old(ideal), t) && paused == old(paused)
      ensures paused ==> visible == []
      ensures !paused ==> (visible == [] <==> notices == []) && |visible| <= 1
      ensures !paused && visible != [] ==> ShowsLeader(visible, notices, ideal.entries)
    {
      visible := [];
      if paused {
        return;
      }
      RebalanceNotices(now, t);
      if notices != [] {
        LeaderExists(ideal.entries, ideal.next);
      }
      hide Leads, Timed;
      visible := ActiveOnes(notices, ideal.entries);
    }

    static method ActiveOnes(q: seq<Notice>, ghost entries: seq<Entry>) returns (visible: seq<Notice>)
      requires LeaderActive(q, entries)
      ensures visible == [] <==> forall k :: 0 <= k < |q| ==> !q[k].active
      ensures |visible| <= 1 && (visible != [] ==> ShowsLeader(visible, q, entries))
    {
      hide Leads;
      visible := [];
      for index := 0 to |q|
        invariant visible == [] <==> forall k :: 0 <= k < index ==> !q[k].active
        invariant |visible| <= 1 && (visible != [] ==> ShowsLeader(visible, q, entries))
      {
        if q[index].active {
          if visible != [] {
            ghost var k :| 0 <= k < index && q[k].active;
            OneLeader(entries, k, index);
          }
          visible := visible + [q[index]];
        }
      }
    }
  }

  ghost predicate ShowsLeader(visible: seq<Notice>, q: seq<Notice>, entries: seq<Entry>) {
    |q| == |entries| && exists k :: 0 <= k < |entries| && Leads(entries, k) && visible == [q[k]]
  }

  function Frozen(n: Notice, now: u32): Notice {
    if n.active then n.(remaining := Subtract(n.expires, now), active := false) else n
  }

  lemma FreezingSettles(q: seq<Notice>, entries: seq<Entry>, t: nat)
    requires Timed(q, entries, t)
    ensures forall frozen: seq<Notice> ::
      |frozen| == |q| && (forall k :: 0 <= k < |q| ==> frozen[k] == Frozen(q[k], t % WORD))
      ==> Timed(frozen, entries, t) && NoneActive(frozen)
  {
    forall k | 0 <= k < |q| && q[k].active
      ensures Frozen(q[k], t % WORD).remaining == Left(entries[k])
    {
      DeadlineMinusNow(t, Left(entries[k]));
    }
  }

  lemma SumWraps(t: nat, left: u32)
    ensures Add(t % WORD, left) == (t + left) % WORD
  {
    ModuloShift(t % WORD + left, t / WORD);
    assert t == (t / WORD) * WORD + t % WORD;
  }

  lemma DeadlineMinusNow(t: nat, left: u32)
    ensures Subtract((t + left) % WORD, t % WORD) == left
  {
    WrapDifference(t + left, t);
    SmallModulo(left);
  }

  lemma SpendingKeepsOrder(entries: seq<Entry>, gap: nat, next: nat)
    requires Distinct(entries, next)
    ensures Distinct(Unfinished(SpendLeader(entries, gap)), next)
  {
    var spent := SpendLeader(entries, gap);
    assert forall k :: 0 <= k < |entries| ==> spent[k].sequence == entries[k].sequence;
    UnfinishedBelow(spent, next);
  }

  lemma {:induction false} AllUnfinished(entries: seq<Entry>)
    requires forall k :: 0 <= k < |entries| ==> Left(entries[k]) > 0
    ensures Unfinished(entries) == entries
  {
    if entries != [] {
      AllUnfinished(entries[1..]);
    }
  }

  /** A second look at the same instant changes nothing. */
  lemma NoTimeNoChange(entries: seq<Entry>)
    requires forall k :: 0 <= k < |entries| ==> Left(entries[k]) > 0
    ensures Unfinished(SpendLeader(entries, 0)) == entries
  {
    assert SpendLeader(entries, 0) == entries;
    AllUnfinished(entries);
  }

  lemma OneTrails(entries: seq<Entry>, j: nat, k: nat)
    requires j < |entries| && k < |entries| && Trails(entries, j)
    ensures Trails(entries, k) ==> j == k
  {
    if j != k {
      assert Before(entries[k].priority, entries[k].sequence, entries[j].priority, entries[j].sequence);
    }
  }

  lemma OneLeader(entries: seq<Entry>, j: nat, k: nat)
    requires j < |entries| && k < |entries| && Leads(entries, j)
    ensures Leads(entries, k) ==> j == k
  {
    if j != k {
      assert Before(entries[j].priority, entries[j].sequence, entries[k].priority, entries[k].sequence);
    }
  }

  lemma {:induction false} LeaderExists(entries: seq<Entry>, next: nat)
    requires Distinct(entries, next) && entries != []
    ensures exists k :: 0 <= k < |entries| && Leads(entries, k)
  {
    if |entries| == 1 {
      assert Leads(entries, 0);
    } else {
      var rest := entries[1..];
      LeaderExists(rest, next);
      var k :| 0 <= k < |rest| && Leads(rest, k);
      if Before(entries[0].priority, entries[0].sequence, rest[k].priority, rest[k].sequence) {
        forall j | 0 <= j < |entries| && j != 0
          ensures Before(entries[0].priority, entries[0].sequence, entries[j].priority, entries[j].sequence)
        {
          assert rest[j - 1] == entries[j];
        }
        assert Leads(entries, 0);
      } else {
        forall j | 0 <= j < |entries| && j != k + 1
          ensures Before(entries[k + 1].priority, entries[k + 1].sequence, entries[j].priority, entries[j].sequence)
        {
          if j > 0 {
            assert rest[j - 1] == entries[j];
          }
        }
        assert Leads(entries, k + 1);
      }
    }
  }

  lemma AppendingKeepsOrder(entries: seq<Entry>, e: Entry)
    requires Distinct(entries, e.sequence)
    ensures Distinct(entries + [e], e.sequence + 1)
  {
  }

  lemma MatchParts(q: seq<Notice>, i: Ideal)
    requires Matches(q, i)
    ensures Distinct(i.entries, i.next) && Timed(q, i.entries, i.clock) && |q| <= MAX_QUEUED_NOTICES
    ensures if i.paused then NoneActive(q) else LeaderActive(q, i.entries)
  {
  }

  lemma AppendingKeepsTimes(q: seq<Notice>, n: Notice, entries: seq<Entry>, e: Entry, clock: nat)
    requires Timed(q, entries, clock) && SameNotice(n, e) && !n.active && n.remaining == Left(e)
    ensures Timed(q + [n], entries + [e], clock)
    ensures NoneActive(q) ==> NoneActive(q + [n])
  {
  }

  lemma TimedHaveTimeLeft(q: seq<Notice>, entries: seq<Entry>, clock: nat)
    requires Timed(q, entries, clock)
    ensures forall k :: 0 <= k < |entries| ==> Left(entries[k]) > 0
  {
  }

  lemma SameOrder(q: seq<Notice>, entries: seq<Entry>, clock: nat)
    requires Timed(q, entries, clock)
    ensures |q| == |entries|
    ensures forall k :: 0 <= k < |q| ==> q[k].priority == entries[k].priority && q[k].sequence == entries[k].sequence
  {
  }

  lemma DroppingKeepsMatch(q: seq<Notice>, entries: seq<Entry>, drop: nat, clock: nat)
    requires |entries| >= 2 && drop < |entries| && Timed(q, entries, clock)
    requires !Leads(entries, drop)
    requires forall k :: 0 <= k < |entries| - 1 ==>
      (Leads(Without(entries, drop), k) <==> Leads(entries, if k < drop then k else k + 1))
    ensures var rest := q[..drop] + q[drop + 1..];
      && Timed(rest, Without(entries, drop), clock)
      && (LeaderActive(q, entries) ==>
            LeaderActive(rest, Without(entries, drop)) && forall n :: n in q && n.active ==> n in rest)
      && (NoneActive(q) ==> NoneActive(rest))
  {
    hide Leads;
    var rest, kept := q[..drop] + q[drop + 1..], Without(entries, drop);
    forall k | 0 <= k < |rest|
      ensures rest[k] == q[if k < drop then k else k + 1] && kept[k] == entries[if k < drop then k else k + 1]
    {
    }
    if LeaderActive(q, entries) {
      forall n | n in q && n.active
        ensures n in rest
      {
        var k :| 0 <= k < |q| && q[k] == n;
        assert rest[if k < drop then k else k - 1] == n;
      }
    }
  }

  /** Dropping the trailing entry of a queue of two or more leaves the leader leading. */
  lemma DroppingKeepsLeader(entries: seq<Entry>, drop: nat, next: nat)
    requires Distinct(entries, next) && |entries| >= 2 && drop < |entries| && Trails(entries, drop)
    ensures !Leads(entries, drop)
    ensures Distinct(Without(entries, drop), next)
    ensures forall k :: 0 <= k < |entries| - 1 ==>
      (Leads(Without(entries, drop), k) <==> Leads(entries, if k < drop then k else k + 1))
  {
    var rest := Without(entries, drop);
    var other := if drop == 0 then 1 else 0;
    assert Before(entries[other].priority, entries[other].sequence, entries[drop].priority, entries[drop].sequence);
    forall k | 0 <= k < |entries| - 1
      ensures Leads(rest, k) <==> Leads(entries, if k < drop then k else k + 1)
    {
      var at := if k < drop then k else k + 1;
      if Leads(rest, k) {
        forall j | 0 <= j < |entries| && j != at
          ensures Before(entries[at].priority, entries[at].sequence, entries[j].priority, entries[j].sequence)
        {
          if j != drop {
            assert rest[if j < drop then j else j - 1] == entries[j];
          }
        }
      }
    }
  }

  // ---- whole runs ----

  /** Each event happens `gap` after the last reading of the clock. */
  datatype Event =
    | Look(gap: nat)
    | Push(text: string, priority: Priority, duration: nat, gap: nat)
    | Pause(pause: bool, gap: nat)

  function Happen(i: Ideal, e: Event): Ideal {
    match e
    case Look(gap) => Sample(i, i.clock + gap)
    case Push(text, priority, duration, gap) => AddEntry(i, text, priority, duration, i.clock + gap)
    case Pause(pause, gap) => SetPaused(i, pause, i.clock + gap)
  }

  function Run(i: Ideal, events: seq<Event>): Ideal
    decreases |events|
  {
    if events == [] then i else Run(Happen(i, events[0]), events[1..])
  }

  /** Whether the event reads the clock while notices are on screen. */
  predicate Charges(i: Ideal, e: Event) {
    && !i.paused
    && (e.Push? ==> e.text != "" && e.duration != 0)
    && (e.Pause? ==> e.pause)
  }

  /** Time is read when notices are charged and when the pause ends; no time in between is ever charged. */
  lemma ClockFollows(i: Ideal, e: Event)
    ensures var after := Happen(i, e);
      && after.paused == (if e.Pause? then e.pause else i.paused)
      && after.clock == (if Charges(i, e) || (e.Pause? && i.paused && !e.pause) then i.clock + e.gap else i.clock)
      && (!Charges(i, e) && !Pushes(e) ==> after.entries == i.entries && after.next == i.next)
  {
    hide SpendLeader, Unfinished, Trimmed;
  }

  predicate LeadsNow(i: Ideal, sequence: nat) {
    exists k :: 0 <= k < |i.entries| && i.entries[k].sequence == sequence && Leads(i.entries, k)
  }

  /** How long the notice was the one on screen. */
  function ShownTime(i: Ideal, events: seq<Event>, sequence: nat): nat
    decreases |events|
  {
    if events == [] then 0
    else
      (if Charges(i, events[0]) && LeadsNow(i, sequence) then events[0].gap else 0)
      + ShownTime(Happen(i, events[0]), events[1..], sequence)
  }

  predicate Holds(i: Ideal, e: Entry) {
    exists k :: 0 <= k < |i.entries| && i.entries[k] == e
  }

  predicate Pushes(e: Event) {
    e.Push? && e.text != "" && e.duration != 0
  }

  /** The queue right after a push, before overflow. */
  function Grown(i: Ideal, e: Event): seq<Entry>
    requires Pushes(e)
  {
    var s := Sample(i, i.clock + e.gap);
    s.entries + [Entry(e.text, e.priority, s.next, e.duration, 0)]
  }

  predicate DropsNow(i: Ideal, e: Event, sequence: nat) {
    && Pushes(e)
    && |Grown(i, e)| > MAX_QUEUED_NOTICES
    && Grown(i, e)[TrailingIndex(Grown(i, e))].sequence == sequence
  }

  /** Overflow took the notice away somewhere in the run. */
  predicate Dropped(i: Ideal, events: seq<Event>, sequence: nat)
    decreases |events|
  {
    events != [] && (DropsNow(i, events[0], sequence) || Dropped(Happen(i, events[0]), events[1..], sequence))
  }

  lemma {:induction false} UnfinishedKeeps(entries: seq<Entry>, k: nat)
    requires k < |entries| && Left(entries[k]) > 0
    ensures exists j :: 0 <= j < |Unfinished(entries)| && Unfinished(entries)[j] == entries[k]
  {
    if k == 0 {
      assert Unfinished(entries)[0] == entries[0];
    } else {
      UnfinishedKeeps(entries[1..], k - 1);
      var j :| 0 <= j < |Unfinished(entries[1..])| && Unfinished(entries[1..])[j] == entries[k];
      assert Unfinished(entries)[if Left(entries[0]) > 0 then j + 1 else j] == entries[k];
    }
  }

  lemma SampleKeeps(i: Ideal, gap: nat, e: Entry)
    requires !i.paused && Distinct(i.entries, i.next) && Holds(i, e)
    requires LeadsNow(i, e.sequence) ==> gap < Left(e)
    requires Left(e) > 0
    ensures Holds(Sample(i, i.clock + gap), if LeadsNow(i, e.sequence) then e.(charged := e.charged + gap) else e)
  {
    hide Leads, Unfinished;
    var k :| 0 <= k < |i.entries| && i.entries[k] == e;
    OnlyOneNumbered(i, k);
    var spent := SpendLeader(i.entries, gap);
    UnfinishedKeeps(spent, k);
  }

  lemma OnlyOneNumbered(i: Ideal, k: nat)
    requires k < |i.entries| && Increasing(i.entries)
    ensures LeadsNow(i, i.entries[k].sequence) <==> Leads(i.entries, k)
  {
    hide Leads;
    forall j | 0 <= j < |i.entries| && i.entries[j].sequence == i.entries[k].sequence
      ensures j == k
    {
    }
  }

  lemma SampleKeepsOrder(i: Ideal, gap: nat)
    requires Distinct(i.entries, i.next)
    ensures var s := Sample(i, i.clock + gap); Distinct(s.entries, s.next) && |s.entries| <= |i.entries|
    ensures Sample(i, i.clock + gap).next == i.next
  {
    hide Distinct, Unfinished, SpendLeader;
    if !i.paused {
      SpendingKeepsOrder(i.entries, gap, i.next);
    }
  }

  lemma GrownKeepsOrder(i: Ideal, e: Event)
    requires Distinct(i.entries, i.next) && Pushes(e)
    ensures Distinct(Grown(i, e), i.next + 1) && |Grown(i, e)| <= |i.entries| + 1
  {
    hide Distinct, Sample;
    SampleKeepsOrder(i, e.gap);
    AppendingKeepsOrder(Sample(i, i.clock + e.gap).entries, Entry(e.text, e.priority, i.next, e.duration, 0));
  }

  /** No event upsets the numbering or leaves more notices than the limit. */
  lemma HappenKeepsOrder(i: Ideal, e: Event)
    requires Distinct(i.entries, i.next) && |i.entries| <= MAX_QUEUED_NOTICES
    ensures Distinct(Happen(i, e).entries, Happen(i, e).next) && |Happen(i, e).entries| <= MAX_QUEUED_NOTICES
  {
    hide Distinct, Sample, TrailingIndex, Trails, Leads;
    SampleKeepsOrder(i, e.gap);
    if Pushes(e) {
      GrownKeepsOrder(i, e);
      var grown := Grown(i, e);
      if |grown| > MAX_QUEUED_NOTICES {
        TrailingIndexTrails(grown, i.next + 1);
        DroppingKeepsLeader(grown, TrailingIndex(grown), i.next + 1);
      }
    }
  }

  lemma TrimmingKeeps(entries: seq<Entry>, k: nat)
    requires k < |entries|
    requires |entries| > MAX_QUEUED_NOTICES ==> entries[TrailingIndex(entries)].sequence != entries[k].sequence
    ensures exists j :: 0 <= j < |Trimmed(entries)| && Trimmed(entries)[j] == entries[k]
  {
    hide TrailingIndex, Without;
    var drop := TrailingIndex(entries);
    if |entries| <= MAX_QUEUED_NOTICES {
      assert Trimmed(entries)[k] == entries[k];
    } else {
      assert Trimmed(entries) == Without(entries, drop);
      WithoutKeeps(entries, drop, k);
    }
  }

  lemma WithoutKeeps(entries: seq<Entry>, drop: nat, k: nat)
    requires k < |entries| && drop < |entries| && k != drop
    ensures exists j :: 0 <= j < |Without(entries, drop)| && Without(entries, drop)[j] == entries[k]
  {
    assert Without(entries, drop)[if k < drop then k else k - 1] == entries[k];
  }

  lemma PushKeeps(i: Ideal, event: Event, e: Entry)
    requires Pushes(event) && Holds(Sample(i, i.clock + event.gap), e) && !DropsNow(i, event, e.sequence)
    ensures Holds(Happen(i, event), e)
  {
    hide Sample, TrailingIndex, Trimmed;
    var s := Sample(i, i.clock + event.gap);
    var k :| 0 <= k < |s.entries| && s.entries[k] == e;
    assert Grown(i, event)[k] == e;
    TrimmingKeeps(Grown(i, event), k);
  }

  /** One event: the notice stays, charged with the gap if it was on screen while it passed. */
  lemma HappenKeeps(i: Ideal, event: Event, e: Entry)
    requires Distinct(i.entries, i.next) && Holds(i, e) && Left(e) > 0
    requires Charges(i, event) && LeadsNow(i, e.sequence) ==> event.gap < Left(e)
    requires !DropsNow(i, event, e.sequence)
    ensures Holds(Happen(i, event),
      if Charges(i, event) && LeadsNow(i, e.sequence) then e.(charged := e.charged + event.gap) else e)
  {
    hide LeadsNow, Distinct, SpendLeader, Unfinished, Trimmed, DropsNow;
    var after := if Charges(i, event) && LeadsNow(i, e.sequence) then e.(charged := e.charged + event.gap) else e;
    if Charges(i, event) {
      SampleKeeps(i, event.gap, e);
      assert Holds(Sample(i, i.clock + event.gap), after);
    }
    if Pushes(event) {
      SameNumberDrops(i, event, e, after);
      PushKeeps(i, event, after);
    }
  }

  lemma SameNumberDrops(i: Ideal, event: Event, e: Entry, after: Entry)
    requires after.sequence == e.sequence
    ensures DropsNow(i, event, after.sequence) <==> DropsNow(i, event, e.sequence)
  {
    hide DropsNow;
  }

  predicate Absent(entries: seq<Entry>, sequence: nat) {
    forall k :: 0 <= k < |entries| ==> entries[k].sequence != sequence
  }

  lemma {:induction false} UnfinishedAbsent(entries: seq<Entry>, sequence: nat)
    requires forall k :: 0 <= k < |entries| ==> entries[k].sequence == sequence ==> Left(entries[k]) <= 0
    ensures Absent(Unfinished(entries), sequence)
    decreases |entries|
  {
    if entries != [] {
      UnfinishedAbsent(entries[1..], sequence);
    }
  }

  lemma TrimmedAbsent(entries: seq<Entry>, sequence: nat)
    requires Absent(entries, sequence)
    ensures Absent(Trimmed(entries), sequence)
  {
    hide TrailingIndex;
  }

  lemma SampleAbsent(i: Ideal, gap: nat, sequence: nat)
    requires Absent(i.entries, sequence)
    ensures Absent(Sample(i, i.clock + gap).entries, sequence)
  {
    hide Leads, Unfinished;
    UnfinishedAbsent(SpendLeader(i.entries, gap), sequence);
  }

  /** A number that was given out and is gone never comes back. */
  lemma HappenAbsent(i: Ideal, event: Event, sequence: nat)
    requires Absent(i.entries, sequence) && sequence < i.next
    ensures Absent(Happen(i, event).entries, sequence) && sequence < Happen(i, event).next
  {
    hide Trimmed, SpendLeader, Unfinished;
    SampleAbsent(i, event.gap, sequence);
    if Pushes(event) {
      TrimmedAbsent(Grown(i, event), sequence);
    }
  }

  lemma {:induction false} RunAbsent(i: Ideal, events: seq<Event>, sequence: nat)
    requires Absent(i.entries, sequence) && sequence < i.next
    ensures Absent(Run(i, events).entries, sequence)
    decreases |events|
  {
    hide Absent, Happen;
    if events != [] {
      HappenAbsent(i, events[0], sequence);
      RunAbsent(Happen(i, events[0]), events[1..], sequence);
    }
  }

  /** The look that finds the time of the leader used up takes it away. */
  lemma FinishedGoes(i: Ideal, gap: nat, e: Entry)
    requires !i.paused && Distinct(i.entries, i.next) && Holds(i, e) && LeadsNow(i, e.sequence) && 0 < Left(e) <= gap
    ensures Absent(Sample(i, i.clock + gap).entries, e.sequence)
  {
    hide Leads, Unfinished;
    var k :| 0 <= k < |i.entries| && i.entries[k] == e;
    OnlyOneNumbered(i, k);
    var spent := SpendLeader(i.entries, gap);
    forall j | 0 <= j < |spent| && spent[j].sequence == e.sequence
      ensures Left(spent[j]) <= 0
    {
      assert i.entries[j].sequence == e.sequence && j == k;
    }
    UnfinishedAbsent(spent, e.sequence);
  }

  lemma FinishingEventGoes(i: Ideal, event: Event, e: Entry)
    requires Distinct(i.entries, i.next) && Holds(i, e) && 0 < Left(e) <= event.gap
    requires Charges(i, event) && LeadsNow(i, e.sequence)
    ensures Absent(Happen(i, event).entries, e.sequence)
  {
    hide LeadsNow, Sample, Trimmed;
    FinishedGoes(i, event.gap, e);
    HeldIsNumbered(i, e);
    if Pushes(event) {
      SampleKeepsOrder(i, event.gap);
      TrimmedAbsent(Grown(i, event), e.sequence);
    }
  }

  lemma HeldIsNumbered(i: Ideal, e: Entry)
    requires Distinct(i.entries, i.next) && Holds(i, e)
    ensures e.sequence < i.next
  {
  }

  /** Overflow takes away the one notice of its number. */
  lemma DroppedGoes(i: Ideal, event: Event, sequence: nat)
    requires Distinct(i.entries, i.next) && DropsNow(i, event, sequence)
    ensures Absent(Happen(i, event).entries, sequence)
  {
    hide Sample;
    GrownKeepsOrder(i, event);
    WithoutIsAbsent(Grown(i, event), TrailingIndex(Grown(i, event)));
  }

  lemma WithoutIsAbsent(entries: seq<Entry>, k: nat)
    requires k < |entries| && Increasing(entries)
    ensures Absent(Without(entries, k), entries[k].sequence)
  {
  }

  lemma NextGrows(i: Ideal, event: Event)
    ensures Happen(i, event).next >= i.next
  {
    hide SpendLeader, Unfinished, Trimmed;
  }

  /**
   * Through any run of looks, pushes, pauses and resumes a queued notice is shown for its duration: either
   * it is still queued, and what it has left is what it had left minus the time it was shown; or it is gone
   * for good, and it was shown for at least what it had left unless overflow dropped it.
   */
  lemma {:induction false} ShownForItsDuration(i: Ideal, events: seq<Event>, e: Entry)
    requires Distinct(i.entries, i.next) && |i.entries| <= MAX_QUEUED_NOTICES
    requires Holds(i, e) && Left(e) > 0
    ensures var shown := ShownTime(i, events, e.sequence);
      || (shown < Left(e) && Holds(Run(i, events), e.(charged := e.charged + shown)))
      || (Absent(Run(i, events).entries, e.sequence) && (shown >= Left(e) || Dropped(i, events, e.sequence)))
    decreases |events|
  {
    hide Distinct, Holds, Happen, Charges, LeadsNow, DropsNow, Absent;
    if events != [] {
      var event := events[0];
      HappenKeepsOrder(i, event);
      HeldIsNumbered(i, e);
      NextGrows(i, event);
      var gap := if Charges(i, event) && LeadsNow(i, e.sequence) then event.gap else 0;
      if gap < Left(e) && !DropsNow(i, event, e.sequence) {
        HappenKeeps(i, event, e);
        var after := e.(charged := e.charged + gap);
        ShownForItsDuration(Happen(i, event), events[1..], after);
        var rest := ShownTime(Happen(i, event), events[1..], e.sequence);
        assert after.(charged := after.charged + rest) == e.(charged := e.charged + (gap + rest));
      } else {
        if gap >= Left(e) {
          FinishingEventGoes(i, event, e);
        } else {
          DroppedGoes(i, event, e.sequence);
        }
        RunAbsent(Happen(i, event), events[1..], e.sequence);
      }
    }
  }
}
