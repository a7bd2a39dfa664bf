/**
 The rate limiter: a truncated log of recent hits per key decides exactly what the full history
 of hits, rejected ones included, would decide.
*/
module RateLimit {
  import opened Prelude

  type Key = nat
  type Time = int

  const MAX_SAFE_INTEGER: int := 0x1F_FFFF_FFFF_FFFF
  const MAX_RETAINED_HITS: int := 100_000

  predicate IsSafe(x: int) { 0 <= x <= MAX_SAFE_INTEGER }

  predicate InputsAllowed(now: Time, window: int, maxHits: int) {
    IsSafe(now) && IsSafe(window) && window > 0 && IsSafe(maxHits) && maxHits < MAX_RETAINED_HITS
  }

  // ----- what the loops compute -----

  /** The hits of the window at the end of the log, at most `room` of them; None at a corrupt entry. */
  function Scan(values: seq<Time>, now: Time, window: int, room: nat): Option<seq<Time>> {
    if values == [] || room == 0 then Some([])
    else
      var last := values[|values| - 1];
      if !IsSafe(last) then None
      else if now - last >= window then Some([])
      else
        match Scan(values[..|values| - 1], now, window, room - 1)
        case None => None
        case Some(earlier) => Some(earlier + [last])
  }

  function LastOf(values: seq<Time>, n: nat): seq<Time> { if |values| <= n then values else values[|values| - n..] }

  datatype Verdict = Verdict(allowed: bool, hits: seq<Time>)

  /** recordFixedWindowHit. */
  function Record(values: seq<Time>, now: Time, window: int, maxHits: int): Verdict {
    if !InputsAllowed(now, window, maxHits) then Verdict(false, [])
    else
      match Scan(values, now, window, maxHits + 1)
      case None => Verdict(false, [now])
      case Some(recent) =>
        var kept := LastOf(recent + [now], maxHits + 1);
        Verdict(|kept| <= maxHits, kept)
  }

  /** The longest run of sound hits of the window at the end of the log. */
  function Retain(values: seq<Time>, now: Time, window: int): seq<Time> {
    if values == [] then []
    else
      var last := values[|values| - 1];
      if !IsSafe(last) || now - last >= window then [] else Retain(values[..|values| - 1], now, window) + [last]
  }

  // ----- the loops -----

  function Reversed(s: seq<Time>): seq<Time> { seq(|s|, i requires 0 <= i < |s| => s[|s| - 1 - i]) }

  function Joined(earlier: Option<seq<Time>>, later: seq<Time>): Option<seq<Time>> {
    match earlier
    case None => None
    case Some(hits) => Some(hits + later)
  }

  /** The scan of the first `i` entries, as the loop does it. */
  function ScanBelow(values: seq<Time>, i: nat, now: Time, window: int, room: nat): Option<seq<Time>>
    requires i <= |values|
  {
    if i == 0 || room == 0 then Some([])
    else if !IsSafe(values[i - 1]) then None
    else if now - values[i - 1] >= window then Some([])
    else Joined(ScanBelow(values, i - 1, now, window, room - 1), [values[i - 1]])
  }

  lemma {:induction false} ScanBelowIsScan(values: seq<Time>, i: nat, now: Time, window: int, room: nat)
    requires i <= |values|
    ensures ScanBelow(values, i, now, window, room) == Scan(values[..i], now, window, room)
  {
    if i > 0 && room > 0 {
      ScanBelowIsScan(values, i - 1, now, window, room - 1);
      assert values[..i][..i - 1] == values[..i - 1];
    }
  }

  /** One more hit found, newest first. */
  lemma OneMoreFound(earlier: Option<seq<Time>>, time: Time, recent: seq<Time>)
    ensures Joined(Joined(earlier, [time]), Reversed(recent)) == Joined(earlier, Reversed(recent + [time]))
  {
    assert [time] + Reversed(recent) == Reversed(recent + [time]);
    if earlier.Some? {
      assert earlier.value + [time] + Reversed(recent) == earlier.value + ([time] + Reversed(recent));
    }
  }

  lemma NothingJoined(hits: Option<seq<Time>>)
    ensures Joined(hits, Reversed([])) == hits
    ensures forall later: seq<Time> :: Joined(Some([]), later) == Some(later)
  {
    if hits.Some? {
      assert hits.value + Reversed([]) == hits.value;
    }
    assert forall later: seq<Time> :: [] + later == later;
  }

  method RecordHit(values: seq<Time>, now: Time, window: int, maxHits: int) returns (allowed: bool, hits: seq<Time>)
    ensures Verdict(allowed, hits) == Record(values, now, window, maxHits)
  {
    if !InputsAllowed(now, window, maxHits) {
      return false, [];
    }
    var maxRetained := maxHits + 1;
    var recent: seq<Time> := [];
    var index := |values| - 1;
    ScanBelowIsScan(values, |values|, now, window, maxRetained);
    assert values[..|values|] == values;
    NothingJoined(ScanBelow(values, |values|, now, window, maxRetained));
    while index >= 0 && |recent| < maxRetained
      invariant -1 <= index < |values|
      invariant |recent| <= maxRetained
      invariant ScanBelow(values, |values|, now, window, maxRetained) ==
                Joined(ScanBelow(values, index + 1, now, window, maxRetained - |recent|), Reversed(recent))
    {
      var time := values[index];
      if !IsSafe(time) {
        return false, [now];
      }
      if now - time >= window {
        break;
      }
      OneMoreFound(ScanBelow(values, index, now, window, maxRetained - |recent| - 1), time, recent);
      recent := recent + [time];
      index := index - 1;
    }
    recent := Reversed(recent) + [now];
    if |recent| > maxRetained {
      recent := recent[|recent| - maxRetained..];
    }
    return |recent| <= maxHits, recent;
  }

  /** The tail of a log whose hits are all sound and in the window, and the longest such. */
  predicate IsRecentTail(values: seq<Time>, kept: seq<Time>, now: Time, window: int) {
    && |kept| <= |values| && kept == values[|values| - |kept|..]
    && (forall i :: 0 <= i < |kept| ==> IsSafe(kept[i]) && now - kept[i] < window)
    && (|kept| < |values| ==>
          !IsSafe(values[|values| - |kept| - 1]) || now - values[|values| - |kept| - 1] >= window)
  }

  lemma {:induction false} RetainIsTail(values: seq<Time>, now: Time, window: int)
    ensures IsRecentTail(values, Retain(values, now, window), now, window)
  {
    if values != [] {
      RetainIsTail(values[..|values| - 1], now, window);
    }
  }

  /**
   Bad inputs are refused and forgotten, and so is a log with a corrupt entry among the hits the
   decision would look at: the hit is refused, and the log starts again with it.
  */
  lemma BadLogRefused(values: seq<Time>, now: Time, window: int, maxHits: int, i: nat)
    ensures !InputsAllowed(now, window, maxHits) ==> Record(values, now, window, maxHits) == Verdict(false, [])
    ensures InputsAllowed(now, window, maxHits) && i < |values| <= i + maxHits + 1 && !IsSafe(values[i])
            && (forall j :: i < j < |values| ==> IsSafe(values[j]) && now - values[j] < window) ==>
              Record(values, now, window, maxHits) == Verdict(false, [now])
  {
    if InputsAllowed(now, window, maxHits) && i < |values| <= i + maxHits + 1 && !IsSafe(values[i])
       && (forall j :: i < j < |values| ==> IsSafe(values[j]) && now - values[j] < window) {
      ScanMeetsCorrupt(values, now, window, maxHits + 1, i);
    }
  }

  lemma {:induction false} ScanMeetsCorrupt(values: seq<Time>, now: Time, window: int, room: nat, i: nat)
    requires i < |values| <= i + room && !IsSafe(values[i])
    requires forall j :: i < j < |values| ==> IsSafe(values[j]) && now - values[j] < window
    ensures Scan(values, now, window, room) == None
  {
    if i < |values| - 1 {
      ScanMeetsCorrupt(values[..|values| - 1], now, window, room - 1, i);
    }
  }

  method RetainRecent(values: seq<Time>, now: Time, window: int) returns (recent: seq<Time>)
    ensures recent == Retain(values, now, window)
  {
    var start := |values|;
    assert values[..start] == values;
    while start > 0
      invariant 0 <= start <= |values|
      invariant Retain(values, now, window) == Retain(values[..start], now, window) + values[start..]
      invariant forall i :: start <= i < |values| ==> IsSafe(values[i])
    {
      var time := values[start - 1];
      assert values[..start][..start - 1] == values[..start - 1];
      if !IsSafe(time) || now - time >= window {
        break;
      }
      assert [time] + values[start..] == values[start - 1..];
      start := start - 1;
    }
    recent := [];
    var index := start;
    while index < |values|
      invariant start <= index <= |values|
      invariant recent == values[start..index]
    {
      var time := values[index];
      if !IsSafe(time) {
        return [];
      }
      recent := recent + [time];
      index := index + 1;
    }
  }

  // ----- the map of logs -----

  function LogOf(hits: map<Key, seq<Time>>, key: Key): seq<Time> { if key in hits then hits[key] else [] }

  function Pruned(hits: map<Key, seq<Time>>, now: Time, window: int): map<Key, seq<Time>> {
    if !IsSafe(now) || !IsSafe(window) || window == 0 then hits
    else map key | key in hits && Retain(hits[key], now, window) != [] :: Retain(hits[key], now, window)
  }

  /** Every log is cut to its recent tail; the logs that are left are those with anything in it. */
  ghost predicate OnlyRecentLogs(before: map<Key, seq<Time>>, after: map<Key, seq<Time>>, now: Time, window: int) {
    && (forall key: Key :: key in after ==> key in before && after[key] != [])
    && (forall key: Key :: key in before ==> IsRecentTail(before[key], LogOf(after, key), now, window))
  }

  lemma PrunedLogs(hits: map<Key, seq<Time>>, now: Time, window: int)
    requires IsSafe(now) && IsSafe(window) && window > 0
    ensures OnlyRecentLogs(hits, Pruned(hits, now, window), now, window)
  {
    forall key: Key | key in hits
      ensures IsRecentTail(hits[key], LogOf(Pruned(hits, now, window), key), now, window)
    {
      RetainIsTail(hits[key], now, window);
    }
  }

  class Limiter {
    var hits: map<Key, seq<Time>>

    constructor ()
      ensures hits == map[]
    {
      hits := map[];
    }

    method Hit(key: Key, now: Time, window: int, maxHits: int) returns (allowed: bool)
      modifies this
      ensures hits == old(hits)[key := Record(LogOf(old(hits), key), now, window, maxHits).hits]
      ensures allowed == Record(LogOf(old(hits), key), now, window, maxHits).allowed
    {
      var result;
      allowed, result := RecordHit(LogOf(hits, key), now, window, maxHits);
      hits := hits[key := result];
    }

    method Prune(now: Time, window: int)
      modifies this
      ensures hits == Pruned(old(hits), now, window)
      ensures IsSafe(now) && IsSafe(window) && window > 0 ==> OnlyRecentLogs(old(hits), hits, now, window)
    {
      if !IsSafe(now) || !IsSafe(window) || window == 0 {
        return;
      }
      ghost var target := Pruned(hits, now, window);
      var keys := hits.Keys;
      while keys != {}
        invariant keys <= old(hits).Keys
        invariant forall key: Key :: key in keys ==> key in hits && hits[key] == old(hits)[key]
        invariant forall key: Key :: key !in keys ==> (key in hits <==> key in target)
        invariant forall key: Key :: key !in keys && key in target ==> hits[key] == target[key]
        decreases keys
      {
        var key: Key :| key in keys;
        var recent := RetainRecent(hits[key], now, window);
        if |recent| > 0 {
          hits := hits[key := recent];
        } else {
          hits := hits - {key};
        }
        keys := keys - {key};
      }
      assert hits.Keys == target.Keys;
      assert hits == target;
      PrunedLogs(old(hits), now, window);
    }
  }

  // ----- runs -----

  datatype Event = Hit(key: Key, now: Time) | Prune(now: Time, window: int)

  function After(hits: map<Key, seq<Time>>, e: Event, window: int, maxHits: int): map<Key, seq<Time>> {
    match e
    case Hit(key, now) => hits[key := Record(LogOf(hits, key), now, window, maxHits).hits]
    case Prune(now, w) => Pruned(hits, now, w)
  }

  function Run(events: seq<Event>, window: int, maxHits: int): map<Key, seq<Time>> {
    if events == [] then map[]
    else After(Run(events[..|events| - 1], window, maxHits), events[|events| - 1], window, maxHits)
  }

  /** Every hit on the key so far, allowed or not. */
  function History(events: seq<Event>, key: Key): seq<Time> {
    if events == [] then []
    else
      var e := events[|events| - 1];
      History(events[..|events| - 1], key) + if e.Hit? && e.key == key then [e.now] else []
  }

  /** Pruning that forgets nothing a window still covers; without a positive window it does nothing. */
  predicate Sound(e: Event, window: int) { IsSafe(e.now) && (e.Prune? ==> e.window >= window || e.window <= 0) }

  /** Time does not go back, and pruning forgets nothing a window still covers. */
  ghost predicate Timely(events: seq<Event>, window: int) {
    && (forall i :: 0 <= i < |events| ==> Sound(events[i], window))
    && (forall i, j :: 0 <= i < j < |events| ==> events[i].now <= events[j].now)
  }

  function Clock(events: seq<Event>): Time { if events == [] then 0 else events[|events| - 1].now }

  /** How many hits lie in the window that ends now. */
  function CountRecent(times: seq<Time>, now: Time, window: int): nat {
    if times == [] then 0
    else CountRecent(times[..|times| - 1], now, window) + if now - times[|times| - 1] < window then 1 else 0
  }

  ghost predicate SortedSafe(times: seq<Time>) {
    && (forall i :: 0 <= i < |times| ==> IsSafe(times[i]))
    && (forall i, j :: 0 <= i < j < |times| ==> times[i] <= times[j])
  }

  /** In a sorted log the hits of the window are its last ones. */
  lemma {:induction false} CountSplits(times: seq<Time>, now: Time, window: int)
    requires SortedSafe(times)
    ensures var n := CountRecent(times, now, window);
            n <= |times| && forall i :: 0 <= i < |times| ==> (now - times[i] < window <==> i >= |times| - n)
  {
    if times != [] {
      var init, last := times[..|times| - 1], times[|times| - 1];
      CountSplits(init, now, window);
      assert forall i :: 0 <= i < |init| ==> times[i] == init[i] <= last;
    }
  }

  lemma {:induction false} RetainIsCount(times: seq<Time>, now: Time, window: int)
    requires SortedSafe(times)
    ensures var n := CountRecent(times, now, window);
            n <= |times| && Retain(times, now, window) == times[|times| - n..]
  {
    CountSplits(times, now, window);
    if times != [] {
      var init, last := times[..|times| - 1], times[|times| - 1];
      RetainIsCount(init, now, window);
      var n := CountRecent(init, now, window);
      if now - last < window {
        assert init[|init| - n..] + [last] == times[|times| - (n + 1)..];
      }
    }
  }

  lemma LastOfAppend(times: seq<Time>, last: Time, room: nat)
    requires room > 0
    ensures LastOf(times, room - 1) + [last] == LastOf(times + [last], room)
  {
  }

  lemma {:induction false} ScanIsRetain(times: seq<Time>, now: Time, window: int, room: nat)
    requires forall i :: 0 <= i < |times| ==> IsSafe(times[i])
    ensures Scan(times, now, window, room) == Some(LastOf(Retain(times, now, window), room))
  {
    if room == 0 {
      assert LastOf(Retain(times, now, window), 0) == [];
    } else if times != [] {
      var init := times[..|times| - 1];
      ScanIsRetain(init, now, window, room - 1);
      LastOfAppend(Retain(init, now, window), times[|times| - 1], room);
    }
  }

  /**
   The log is the end of the history; what is missing before it has left every later window,
   or does not matter because the log alone is over the limit.
  */
  ghost predicate Faithful(log: seq<Time>, history: seq<Time>, clock: Time, window: int, maxHits: nat) {
    && SortedSafe(history)
    && (forall i :: 0 <= i < |history| ==> history[i] <= clock)
    && |log| <= maxHits + 1 && |log| <= |history|
    && log == history[|history| - |log|..]
    && (|log| < |history| ==>
          |log| == maxHits + 1 || clock - history[|history| - |log| - 1] >= window)
  }

  lemma SuffixSafe(log: seq<Time>, history: seq<Time>, clock: Time, window: int, maxHits: nat)
    requires Faithful(log, history, clock, window, maxHits)
    ensures SortedSafe(log)
  {
  }

  /** The number of recent hits in the log: all there are, or more than allowed. */
  lemma CountsAgree(log: seq<Time>, history: seq<Time>, clock: Time, now: Time, window: int, maxHits: nat)
    requires Faithful(log, history, clock, window, maxHits) && clock <= now && window > 0
    ensures var n, m := CountRecent(log, now, window), CountRecent(history, now, window);
            n == m || (n == |log| == maxHits + 1 && m > n)
  {
    SuffixSafe(log, history, clock, window, maxHits);
    CountSplits(log, now, window);
    CountSplits(history, now, window);
    var n, k := CountRecent(log, now, window), |history| - |log|;
    if n > 0 {
      assert now - history[k + (|log| - n)] < window;
    }
    if n < |log| {
      assert now - history[k + (|log| - n - 1)] >= window;
    } else if k > 0 && now - history[k - 1] < window {
      assert n == maxHits + 1;
    }
  }

  /** What the hit makes of a sound log. */
  lemma RecordIsTail(log: seq<Time>, now: Time, window: int, maxHits: nat)
    requires SortedSafe(log) && |log| <= maxHits + 1 && InputsAllowed(now, window, maxHits)
    ensures var n := CountRecent(log, now, window);
            && n <= |log|
            && Record(log, now, window, maxHits).hits == LastOf(log[|log| - n..] + [now], maxHits + 1)
            && (Record(log, now, window, maxHits).allowed <==> n + 1 <= maxHits)
  {
    ScanIsRetain(log, now, window, maxHits + 1);
    RetainIsCount(log, now, window);
    var n := CountRecent(log, now, window);
    assert LastOf(log[|log| - n..], maxHits + 1) == log[|log| - n..];
  }

  lemma TailKeeps(log: seq<Time>, history: seq<Time>, clock: Time, now: Time, window: int, maxHits: nat, n: nat)
    requires Faithful(log, history, clock, window, maxHits) && clock <= now && IsSafe(now)
    requires n <= |log| && (n < |log| ==> now - log[|log| - n - 1] >= window)
    ensures Faithful(LastOf(log[|log| - n..] + [now], maxHits + 1), history + [now], now, window, maxHits)
  {
    var recent := log[|log| - n..];
    assert recent == history[|history| - n..];
    var kept := LastOf(recent + [now], maxHits + 1);
    var all := history + [now];
    assert kept == all[|all| - |kept|..];
    if |kept| < |all| && |kept| < maxHits + 1 {
      assert all[|all| - |kept| - 1] == history[|history| - n - 1];
      if n < |log| {
        assert history[|history| - n - 1] == log[|log| - n - 1];
      }
    }
  }

  lemma HitKeeps(log: seq<Time>, history: seq<Time>, clock: Time, now: Time, window: int, maxHits: nat)
    requires Faithful(log, history, clock, window, maxHits) && clock <= now && InputsAllowed(now, window, maxHits)
    ensures Faithful(Record(log, now, window, maxHits).hits, history + [now], now, window, maxHits)
    ensures Record(log, now, window, maxHits).allowed <==> CountRecent(history, now, window) + 1 <= maxHits
  {
    SuffixSafe(log, history, clock, window, maxHits);
    RecordIsTail(log, now, window, maxHits);
    CountSplits(log, now, window);
    CountsAgree(log, history, clock, now, window, maxHits);
    TailKeeps(log, history, clock, now, window, maxHits, CountRecent(log, now, window));
  }

  lemma EndOfTheEnd(times: seq<Time>, k: nat, n: nat)
    requires k <= |times| && n <= |times| - k
    ensures times[k..][|times| - k - n..] == times[|times| - n..]
    ensures n < |times| - k ==> times[k..][|times| - k - n - 1] == times[|times| - n - 1]
  {
  }

  /** Dropping old hits from the front of the log. */
  lemma DropKeeps(log: seq<Time>, history: seq<Time>, clock: Time, now: Time, window: int, maxHits: nat, n: nat)
    requires Faithful(log, history, clock, window, maxHits) && clock <= now
    requires n <= |log| && (n < |log| ==> now - log[|log| - n - 1] >= window)
    ensures Faithful(log[|log| - n..], history, now, window, maxHits)
  {
    EndOfTheEnd(history, |history| - |log|, n);
    assert log[|log| - n..] == history[|history| - n..];
  }

  lemma PruneKeeps(log: seq<Time>, history: seq<Time>, clock: Time, now: Time, w: int, window: int, maxHits: nat)
    requires Faithful(log, history, clock, window, maxHits) && clock <= now && 0 < window <= w
    ensures Faithful(Retain(log, now, w), history, now, window, maxHits)
  {
    SuffixSafe(log, history, clock, window, maxHits);
    CountSplits(log, now, w);
    RetainIsCount(log, now, w);
    DropKeeps(log, history, clock, now, window, maxHits, CountRecent(log, now, w));
  }

  lemma StillFaithful(log: seq<Time>, history: seq<Time>, clock: Time, now: Time, window: int, maxHits: nat)
    requires Faithful(log, history, clock, window, maxHits) && clock <= now
    ensures Faithful(log, history, now, window, maxHits)
  {
  }

  lemma TimelyPrefix(events: seq<Event>, window: int)
    requires Timely(events, window) && events != []
    ensures Timely(events[..|events| - 1], window) && Clock(events[..|events| - 1]) <= Clock(events)
    ensures Sound(events[|events| - 1], window)
  {
  }

  lemma {:induction false} EveryLogIsFaithful(events: seq<Event>, key: Key, window: int, maxHits: nat)
    requires Timely(events, window) && InputsAllowed(0, window, maxHits)
    ensures Faithful(LogOf(Run(events, window, maxHits), key), History(events, key), Clock(events), window, maxHits)
  {
    if events != [] {
      var before, e := events[..|events| - 1], events[|events| - 1];
      TimelyPrefix(events, window);
      EveryLogIsFaithful(before, key, window, maxHits);
      var log, history := LogOf(Run(before, window, maxHits), key), History(before, key);
      if e.Hit? && e.key == key {
        HitKeeps(log, history, Clock(before), e.now, window, maxHits);
      } else {
        assert history + [] == history;
        StillFaithful(log, history, Clock(before), e.now, window, maxHits);
        if e.Prune? && e.window > 0 {
          PruneKeeps(log, history, Clock(before), e.now, e.window, window, maxHits);
        }
      }
    }
  }

  // ----- the theorems -----

  /**
   Whatever hits on whatever keys and whatever prunings came before, the next hit on a key is
   allowed exactly if the full history has fewer than `maxHits` hits in the window; and no
   log holds more than `maxHits + 1` hits.
  */
  lemma LogDecidesLikeHistory(events: seq<Event>, key: Key, now: Time, window: int, maxHits: nat)
    requires Timely(events, window) && InputsAllowed(now, window, maxHits) && Clock(events) <= now
    ensures var log := LogOf(Run(events, window, maxHits), key);
            && (Record(log, now, window, maxHits).allowed <==> CountRecent(History(events, key), now, window) + 1 <= maxHits)
            && |log| <= maxHits + 1
  {
    EveryLogIsFaithful(events, key, window, maxHits);
    HitKeeps(LogOf(Run(events, window, maxHits), key), History(events, key), Clock(events), now, window, maxHits);
  }

  /** Allowed hits on the key in the interval of one window that starts at `from`. */
  function AllowedIn(events: seq<Event>, key: Key, from: Time, window: int, maxHits: int): nat {
    if events == [] then 0
    else
      var before, e := events[..|events| - 1], events[|events| - 1];
      AllowedIn(before, key, from, window, maxHits)
      + if e.Hit? && e.key == key && from <= e.now < from + window
           && Record(LogOf(Run(before, window, maxHits), key), e.now, window, maxHits).allowed
        then 1 else 0
  }

  lemma {:induction false} AllowedAmongRecent(events: seq<Event>, key: Key, from: Time, now: Time, window: int, maxHits: int)
    requires now < from + window
    ensures AllowedIn(events, key, from, window, maxHits) <= CountRecent(History(events, key), now, window)
  {
    if events != [] {
      var before, e := events[..|events| - 1], events[|events| - 1];
      AllowedAmongRecent(before, key, from, now, window, maxHits);
      var history := History(before, key);
      assert history + [] == history;
      assert (history + [e.now])[..|history|] == history;
    }
  }

  /** No interval of one window ever holds more than `maxHits` allowed hits of a key. */
  lemma {:induction false} NeverTooManyAllowed(events: seq<Event>, key: Key, from: Time, window: int, maxHits: nat)
    requires Timely(events, window) && InputsAllowed(0, window, maxHits)
    ensures AllowedIn(events, key, from, window, maxHits) <= maxHits
  {
    if events != [] {
      var before, e := events[..|events| - 1], events[|events| - 1];
      TimelyPrefix(events, window);
      NeverTooManyAllowed(before, key, from, window, maxHits);
      if e.Hit? && e.key == key && from <= e.now < from + window {
        LogDecidesLikeHistory(before, key, e.now, window, maxHits);
        AllowedAmongRecent(before, key, from, e.now, window, maxHits);
      }
    }
  }

  // ----- exactly which pruning is harmless -----

  /** Time does not go back, and every pruning has the window `w`. */
  ghost predicate PrunedWith(events: seq<Event>, w: int) {
    && (forall i :: 0 <= i < |events| ==> IsSafe(events[i].now) && (events[i].Prune? ==> events[i].window == w))
    && (forall i, j :: 0 <= i < j < |events| ==> events[i].now <= events[j].now)
  }

  /** The next hit on the key is decided as the full history would decide it. */
  ghost predicate Agrees(events: seq<Event>, key: Key, now: Time, window: int, maxHits: nat) {
    var allowed := Record(LogOf(Run(events, window, maxHits), key), now, window, maxHits).allowed;
    allowed <==> CountRecent(History(events, key), now, window) + 1 <= maxHits
  }

  /** Every decision of every run pruned with `w` is that of the full history. */
  ghost predicate PruningIsHarmless(w: int, window: int, maxHits: nat) {
    forall events: seq<Event>, key: Key, now: Time ::
      PrunedWith(events, w) && Clock(events) <= now && IsSafe(now) ==> Agrees(events, key, now, window, maxHits)
  }

  /** `n` hits on the same key at time zero. */
  function HitsAtZero(n: nat): seq<Event> { seq(n, i => Hit(0, 0)) }

  lemma {:induction false} HistoryOfHits(n: nat)
    ensures |History(HitsAtZero(n), 0)| == n && forall i :: 0 <= i < n ==> History(HitsAtZero(n), 0)[i] == 0
  {
    if n > 0 {
      HistoryOfHits(n - 1);
      assert HitsAtZero(n)[..n - 1] == HitsAtZero(n - 1);
    }
  }

  lemma {:induction false} CountOfZeros(times: seq<Time>, now: Time, window: int)
    requires now < window && forall i :: 0 <= i < |times| ==> times[i] == 0
    ensures CountRecent(times, now, window) == |times|
  {
    if times != [] {
      CountOfZeros(times[..|times| - 1], now, window);
    }
  }

  /**
   Every window shorter than the limiter's forgets, at every limit that allows anything: after
   as many hits as are allowed and one pruning, the next hit is allowed although it is one too many.
  */
  lemma ShortPruningForgets(w: int, window: int, maxHits: nat)
    requires InputsAllowed(0, window, maxHits) && 0 < w < window && maxHits > 0
    ensures var events := HitsAtZero(maxHits) + [Prune(w, w)];
            && PrunedWith(events, w) && Clock(events) == w
            && Record(LogOf(Run(events, window, maxHits), 0), w, window, maxHits).allowed
            && CountRecent(History(events, 0), w, window) == maxHits
  {
    var hits := HitsAtZero(maxHits);
    var events := hits + [Prune(w, w)];
    assert events[..|events| - 1] == hits;
    HistoryOfHits(maxHits);
    assert History(events, 0) == History(hits, 0) + [] == History(hits, 0);
    CountOfZeros(History(hits, 0), w, window);
    OldLogIsPruned(hits, w, window, maxHits);
    FirstHit(w, window, maxHits);
  }

  /** A log of hits at time zero is empty once it is pruned with the window that has passed. */
  lemma OldLogIsPruned(hits: seq<Event>, w: int, window: int, maxHits: nat)
    requires InputsAllowed(0, window, maxHits) && 0 < w < window && hits == HitsAtZero(maxHits)
    ensures LogOf(Pruned(Run(hits, window, maxHits), w, w), 0) == []
  {
    HistoryOfHits(maxHits);
    EveryLogIsFaithful(hits, 0, window, maxHits);
    assert Retain(LogOf(Run(hits, window, maxHits), 0), w, w) == [];
  }

  lemma FirstHit(now: Time, window: int, maxHits: nat)
    requires InputsAllowed(now, window, maxHits) && maxHits > 0
    ensures Record([], now, window, maxHits) == Verdict(true, [now])
  {
    assert LastOf([] + [now], maxHits + 1) == [now];
  }

  /** A limit of zero allows nothing, whatever the log. */
  lemma ZeroAllowsNothing(log: seq<Time>, now: Time, window: int)
    ensures !Record(log, now, window, 0).allowed
  {
  }

  /**
   Pruning with `w` never changes a decision exactly if `w` is not shorter than the window that
   counts, or no pruning window at all, or nothing is ever allowed anyway.
  */
  lemma PruningHarmlessExactly(w: int, window: int, maxHits: nat)
    requires InputsAllowed(0, window, maxHits)
    ensures PruningIsHarmless(w, window, maxHits) <==> w >= window || w <= 0 || maxHits == 0
  {
    if 0 < w < window && maxHits > 0 {
      ShortPruningForgets(w, window, maxHits);
      assert !Agrees(HitsAtZero(maxHits) + [Prune(w, w)], 0, w, window, maxHits);
    } else {
      forall events: seq<Event>, key: Key, now: Time | PrunedWith(events, w) && Clock(events) <= now && IsSafe(now)
        ensures Agrees(events, key, now, window, maxHits)
      {
        if maxHits == 0 {
          ZeroAllowsNothing(LogOf(Run(events, window, maxHits), key), now, window);
        } else {
          LogDecidesLikeHistory(events, key, now, window, maxHits);
        }
      }
    }
  }
}
