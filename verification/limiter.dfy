/**
 * The request limiter: one counter per client and path for each minute, kept in Redis or, when
 * Redis fails, in a map that is cleaned of old minutes once it has grown.
 */
module Limiting {
  import opened Wrappers

  // ---------- Time ----------

  const NANOS_PER_SECOND: int := 1_000_000_000
  const NANOS_PER_MINUTE: int := 60_000_000_000

  /** The minute a moment falls into. */
  function Window(time: int): int {
    time / NANOS_PER_MINUTE
  }

  /** A window is a minute of the clock: 60 seconds long, the first one beginning at time 0. */
  lemma WindowIsMinute(time: int)
    ensures 60_000_000_000 * Window(time) <= time < 60_000_000_000 * (Window(time) + 1)
  {
  }

  /** Moments 60 seconds apart fall into different minutes. */
  lemma MinutesApart(first: int, second: int)
    requires second - first >= 60_000_000_000
    ensures Window(first) < Window(second)
  {
    WindowIsMinute(first);
    WindowIsMinute(second);
  }

  // ---------- The local map ----------

  datatype Bucket = Bucket(window: int, count: nat)

  /** One call of incrementLocal: the key and the clock it reads. */
  datatype Call = Call(key: string, time: int)

  const CLEANUP_SIZE: nat := 512

  function Cleaned(local: map<string, Bucket>, window: int): map<string, Bucket> {
    if |local| < CLEANUP_SIZE then local
    else map key | key in local && !(local[key].window < window) :: local[key]
  }

  function Counted(local: map<string, Bucket>, key: string, window: int): nat {
    var kept := Cleaned(local, window);
    1 + if key in kept && kept[key].window == window then kept[key].count else 0
  }

  function Bumped(local: map<string, Bucket>, key: string, window: int): map<string, Bucket> {
    Cleaned(local, window)[key := Bucket(window, Counted(local, key, window))]
  }

  /** The map after a sequence of calls. */
  function After(calls: seq<Call>): map<string, Bucket> {
    if calls == [] then map[]
    else Bumped(After(calls[..|calls| - 1]), calls[|calls| - 1].key, Window(calls[|calls| - 1].time))
  }

  /** What the call at position i returns. */
  function Returned(calls: seq<Call>, i: nat): nat
    requires i < |calls|
  {
    Counted(After(calls[..i]), calls[i].key, Window(calls[i].time))
  }

  function Min(a: int, b: int): int {
    if a < b then a else b
  }

  function Max(a: int, b: int): int {
    if a < b then b else a
  }

  // ---------- The ideal counter ----------

  /** An unbounded counter that never forgets: the calls of a key in a minute. */
  function Count(calls: seq<Call>, key: string, window: int): nat {
    if calls == [] then 0
    else
      var last := calls[|calls| - 1];
      Count(calls[..|calls| - 1], key, window) + (if last.key == key && Window(last.time) == window then 1 else 0)
  }

  function KeysIn(calls: seq<Call>, window: int): set<string> {
    set i | 0 <= i < |calls| && Window(calls[i].time) == window :: calls[i].key
  }

  /** The clock never moves to an earlier minute. */
  predicate MinutesRise(calls: seq<Call>) {
    forall i, j :: 0 <= i < j < |calls| ==> Window(calls[i].time) <= Window(calls[j].time)
  }

  /** What the map still holds for a key in a minute. */
  function Held(calls: seq<Call>, key: string, window: int): nat {
    var local := After(calls);
    if key in local && local[key].window == window then local[key].count else 0
  }

  /**
   * The map has lost calls of a key in a minute: after one of them the key was called in another
   * minute, or a cleanup ran in a later one.
   */
  predicate Forgets(calls: seq<Call>, key: string, window: int) {
    calls != [] &&
    var init, last := calls[..|calls| - 1], calls[|calls| - 1];
    || Forgets(init, key, window)
    || (Count(init, key, window) > 0 && last.key == key && Window(last.time) != window)
    || (Count(init, key, window) > 0 && |After(init)| >= CLEANUP_SIZE && window < Window(last.time))
  }

  /** One more call, for the key and minute looked at. */
  lemma HeldAfterOneMore(calls: seq<Call>, call: Call, key: string, window: int)
    ensures var lost := (call.key == key && Window(call.time) != window)
                        || (|After(calls)| >= CLEANUP_SIZE && window < Window(call.time));
      var mine := call.key == key && Window(call.time) == window;
      Held(calls + [call], key, window)
      == if mine then Held(calls, key, window) + 1 else if lost then 0 else Held(calls, key, window)
  {
    assert (calls + [call])[..|calls|] == calls;
  }

  lemma {:induction false} HeldIsCountUnlessForgotten(calls: seq<Call>, key: string, window: int)
    ensures Held(calls, key, window) <= Count(calls, key, window)
    ensures Held(calls, key, window) == Count(calls, key, window) <==> !Forgets(calls, key, window)
  {
    if calls == [] {
    } else {
      var init, last := calls[..|calls| - 1], calls[|calls| - 1];
      assert calls == init + [last];
      HeldIsCountUnlessForgotten(init, key, window);
      HeldAfterOneMore(init, last, key, window);
    }
  }

  /**
   * For every sequence of calls and every clock: no answer is above that of the ideal counter,
   * and it is the same exactly when the map has lost no call of that key in that minute.
   */
  lemma AnswerIsIdealIff(calls: seq<Call>, i: nat)
    requires i < |calls|
    ensures var key, window := calls[i].key, Window(calls[i].time);
      && Returned(calls, i) <= 1 + Count(calls[..i], key, window)
      && (Returned(calls, i) == 1 + Count(calls[..i], key, window) <==> !Forgets(calls[..i], key, window))
  {
    HeldIsCountUnlessForgotten(calls[..i], calls[i].key, Window(calls[i].time));
  }

  lemma {:induction false} NoCallNoCount(calls: seq<Call>, key: string, window: int)
    requires forall i :: 0 <= i < |calls| ==> Window(calls[i].time) < window
    ensures Count(calls, key, window) == 0
  {
    if calls == [] {
    } else {
      NoCallNoCount(calls[..|calls| - 1], key, window);
    }
  }

  lemma MinutesRiseInPrefix(calls: seq<Call>, n: nat)
    requires MinutesRise(calls) && n <= |calls|
    ensures MinutesRise(calls[..n])
    ensures forall i :: 0 <= i < n < |calls| ==> Window(calls[i].time) <= Window(calls[n].time)
  {
  }

  /** A clock that never returns to an earlier minute makes the map lose nothing it will be asked for. */
  lemma {:induction false} RisingMinutesForgetNothing(calls: seq<Call>, key: string, window: int)
    requires MinutesRise(calls) && (calls != [] ==> Window(calls[|calls| - 1].time) <= window)
    ensures !Forgets(calls, key, window)
  {
    if calls == [] {
    } else {
      var n := |calls| - 1;
      MinutesRiseInPrefix(calls, n);
      RisingMinutesForgetNothing(calls[..n], key, window);
      if Window(calls[n].time) < window {
        NoCallNoCount(calls[..n], key, window);
      }
    }
  }

  /** Refinement: the map that forgets answers as the counter that does not, for every run and every cleanup. */
  lemma LimiterRefinesIdealCounter(calls: seq<Call>, i: nat)
    requires MinutesRise(calls) && i < |calls|
    ensures Returned(calls, i) == 1 + Count(calls[..i], calls[i].key, Window(calls[i].time))
  {
    MinutesRiseInPrefix(calls, i);
    RisingMinutesForgetNothing(calls[..i], calls[i].key, Window(calls[i].time));
    AnswerIsIdealIff(calls, i);
  }

  /** A step back of the clock can make the answer too low: the minute comes back and is counted anew. */
  lemma ClockStepBackRestartsCount()
    ensures var calls := [Call("k", NANOS_PER_MINUTE), Call("k", 2 * NANOS_PER_MINUTE), Call("k", NANOS_PER_MINUTE)];
      !MinutesRise(calls) && Returned(calls, 2) == 1 && Count(calls[..2], "k", 1) == 1
  {
    var a, b, c := Call("k", NANOS_PER_MINUTE), Call("k", 2 * NANOS_PER_MINUTE), Call("k", NANOS_PER_MINUTE);
    var calls := [a, b, c];
    assert Window(calls[1].time) == 2 && Window(calls[2].time) == 1 && Window(calls[0].time) == 1;
    assert calls[..2] == [a, b] && [a, b][..1] == [a] && [a][..0] == [];
    assert After([a]) == map["k" := Bucket(1, 1)];
    assert After([a, b])["k"] == Bucket(2, 1);
    assert Count([a], "k", 1) == 1;
  }

  lemma {:induction false} NoCallInWindow(calls: seq<Call>, key: string, window: int)
    requires forall i :: 0 <= i < |calls| && calls[i].key == key ==> Window(calls[i].time) != window
    ensures Count(calls, key, window) == 0
  {
    if calls == [] {
    } else {
      NoCallInWindow(calls[..|calls| - 1], key, window);
    }
  }

  /** Each minute counts anew: a call 60 seconds or more from every earlier one of its key is given 1. */
  lemma CallsApartCountAnew(calls: seq<Call>, i: nat)
    requires i < |calls|
    requires forall j :: 0 <= j < i && calls[j].key == calls[i].key ==>
      calls[i].time - calls[j].time >= 60_000_000_000 || calls[j].time - calls[i].time >= 60_000_000_000
    ensures Returned(calls, i) == 1
    ensures Count(calls[..i], calls[i].key, Window(calls[i].time)) == 0
  {
    var key, window := calls[i].key, Window(calls[i].time);
    forall j | 0 <= j < |calls[..i]| && calls[..i][j].key == key ensures Window(calls[..i][j].time) != window {
      if calls[i].time - calls[j].time >= 60_000_000_000 {
        MinutesApart(calls[j].time, calls[i].time);
      } else {
        MinutesApart(calls[i].time, calls[j].time);
      }
    }
    NoCallInWindow(calls[..i], key, window);
    AnswerIsIdealIff(calls, i);
  }

  // ---------- Memory ----------

  /** A cleanup removes no bucket of the current minute. */
  lemma CleanupKeepsCurrent(local: map<string, Bucket>, window: int, key: string)
    requires key in local && local[key].window == window
    ensures key in Cleaned(local, window) && Cleaned(local, window)[key] == local[key]
  {
  }

  lemma KeysInPrefix(calls: seq<Call>, n: nat, window: int)
    requires n <= |calls|
    ensures KeysIn(calls[..n], window) <= KeysIn(calls, window)
  {
    forall key | key in KeysIn(calls[..n], window) ensures key in KeysIn(calls, window) {
      var i :| 0 <= i < n && Window(calls[..n][i].time) == window && calls[..n][i].key == key;
      assert calls[i].key in KeysIn(calls, window);
    }
  }

  /** Every bucket stands for calls of its key in its minute, whatever the clock does. */
  lemma {:induction false} BucketsAreCalls(calls: seq<Call>, key: string)
    requires key in After(calls)
    ensures key in KeysIn(calls, After(calls)[key].window)
  {
    var init, last := calls[..|calls| - 1], calls[|calls| - 1];
    if last.key == key {
      assert calls[|calls| - 1].key in KeysIn(calls, Window(last.time));
    } else {
      BucketsAreCalls(init, key);
      KeysInPrefix(calls, |calls| - 1, After(init)[key].window);
    }
  }

  /** The keys called in a minute or a later one. */
  function KeysFrom(calls: seq<Call>, window: int): set<string> {
    set i | 0 <= i < |calls| && Window(calls[i].time) >= window :: calls[i].key
  }

  lemma KeysInLaterMinute(calls: seq<Call>, n: nat, key: string, window: int, from: int)
    requires n <= |calls| && key in KeysIn(calls[..n], window) && from <= window
    ensures key in KeysFrom(calls, from)
  {
    var i :| 0 <= i < n && Window(calls[..n][i].time) == window && calls[..n][i].key == key;
    assert calls[i].key in KeysFrom(calls, from);
  }

  lemma SubsetSize(a: set<string>, b: set<string>)
    requires a <= b
    ensures |a| <= |b|
  {
    if a == {} {
    } else {
      var x :| x in a;
      SubsetSize(a - {x}, b - {x});
    }
  }

  /**
   * For every clock: after each call the map holds at most 512 keys, or at most those called in
   * the current minute or a later one. Later ones there are only after a step back of the clock.
   */
  lemma MemoryBound(calls: seq<Call>)
    requires calls != []
    ensures var current := Window(calls[|calls| - 1].time);
      && |After(calls)| <= Max(512, |KeysFrom(calls, current)|)
      && (MinutesRise(calls) ==> KeysFrom(calls, current) == KeysIn(calls, current))
  {
    var init, last := calls[..|calls| - 1], calls[|calls| - 1];
    var window := Window(last.time);
    var kept := Cleaned(After(init), window);
    assert After(calls).Keys == kept.Keys + {last.key};
    assert |After(calls)| == |After(calls).Keys| && |kept| == |kept.Keys|;
    if |After(init)| < CLEANUP_SIZE {
      assert |kept.Keys + {last.key}| <= |kept.Keys| + 1;
    } else {
      assert calls[|calls| - 1].key in KeysFrom(calls, window);
      forall key | key in kept ensures key in KeysFrom(calls, window) {
        BucketsAreCalls(init, key);
        KeysInLaterMinute(calls, |calls| - 1, key, After(init)[key].window, window);
      }
      SubsetSize(After(calls).Keys, KeysFrom(calls, window));
    }
  }

  // ---------- Admission ----------

  /**
   * What one backend counter sees, in the order in which it sees it. A request that Redis
   * answers is one Shared event; a request that falls back is one Local event, after a Shared
   * event without an answer if its increment reached Redis all the same.
   */
  datatype Event =
    | Shared(call: Call, answered: bool)
    | Local(call: Call)

  function LocalPart(events: seq<Event>): seq<Call> {
    if events == [] then []
    else
      var rest := LocalPart(events[..|events| - 1]);
      if events[|events| - 1].Local? then rest + [events[|events| - 1].call] else rest
  }

  function SharedPart(events: seq<Event>): seq<Call> {
    if events == [] then []
    else
      var rest := SharedPart(events[..|events| - 1]);
      if events[|events| - 1].Shared? then rest + [events[|events| - 1].call] else rest
  }

  /** The count an event is given after the events before it. */
  function Given(events: seq<Event>, e: Event): nat {
    match e
    case Shared(call, _) => 1 + Count(SharedPart(events), call.key, Window(call.time))
    case Local(call) => Counted(After(LocalPart(events)), call.key, Window(call.time))
  }

  /** The event lets a request of this key through in this minute. */
  predicate Admits(events: seq<Event>, e: Event, key: string, window: int, limit: int) {
    e.call.key == key && Window(e.call.time) == window && (e.Shared? ==> e.answered) && Given(events, e) <= limit
  }

  /** How many requests of a key are let through in a minute. */
  function Admissions(events: seq<Event>, key: string, window: int, limit: int): nat {
    if events == [] then 0
    else
      var before := events[..|events| - 1];
      Admissions(before, key, window, limit)
      + (if Admits(before, events[|events| - 1], key, window, limit) then 1 else 0)
  }

  function Capped(calls: seq<Call>, key: string, window: int, limit: int): int {
    Min(Max(limit, 0), Count(calls, key, window))
  }

  /** A request more on a counter: it is let through exactly while the counter is below the limit. */
  lemma CappedAppend(calls: seq<Call>, call: Call, key: string, window: int, limit: int)
    ensures var mine := call.key == key && Window(call.time) == window;
      Capped(calls + [call], key, window, limit)
      == Capped(calls, key, window, limit) + (if mine && Count(calls, key, window) + 1 <= limit then 1 else 0)
  {
    assert (calls + [call])[..|calls|] == calls;
  }

  /** How many of the calls of a key in a minute the local map gives a count within the limit. */
  function Passed(calls: seq<Call>, key: string, window: int, limit: int): nat {
    if calls == [] then 0
    else
      var init, last := calls[..|calls| - 1], calls[|calls| - 1];
      var mine := last.key == key && Window(last.time) == window;
      Passed(init, key, window, limit) + (if mine && Held(init, key, window) + 1 <= limit then 1 else 0)
  }

  /** How often the map begins to count a key and a minute anew although it has counted it before. */
  function Restarts(calls: seq<Call>, key: string, window: int): nat {
    if calls == [] then 0
    else
      var init, last := calls[..|calls| - 1], calls[|calls| - 1];
      var mine := last.key == key && Window(last.time) == window;
      Restarts(init, key, window)
      + (if mine && Held(init, key, window) == 0 && Count(init, key, window) > 0 then 1 else 0)
  }

  /** What the limit allows after some restarts, while the map holds a number of calls. */
  function Allowance(restarts: nat, held: nat, counted: nat, limit: int): int {
    Max(limit, 0) * restarts + (if held > 0 then Min(Max(limit, 0), held) else if counted > 0 then Max(limit, 0) else 0)
  }

  lemma AllowanceGrows(restarts: nat, held: nat, counted: nat, limit: int)
    ensures Allowance(restarts, held, counted, limit) + (if held + 1 <= limit then 1 else 0)
         <= Allowance(restarts + (if held == 0 && counted > 0 then 1 else 0), held + 1, counted + 1, limit)
    ensures counted > 0 ==> Allowance(restarts, held, counted, limit) <= Allowance(restarts, 0, counted, limit)
  {
    assert Max(limit, 0) * (restarts + 1) == Max(limit, 0) * restarts + Max(limit, 0);
  }

  /** For every clock: each restart may let the limit through once more, and nothing else does. */
  lemma {:induction false} PassedWithinAllowance(calls: seq<Call>, key: string, window: int, limit: int)
    ensures Passed(calls, key, window, limit)
         <= Allowance(Restarts(calls, key, window), Held(calls, key, window), Count(calls, key, window), limit)
    ensures Passed(calls, key, window, limit) <= Count(calls, key, window)
  {
    if calls == [] {
    } else {
      hide After, Allowance;
      var init, last := calls[..|calls| - 1], calls[|calls| - 1];
      assert calls == init + [last];
      PassedWithinAllowance(init, key, window, limit);
      HeldAfterOneMore(init, last, key, window);
      HeldIsCountUnlessForgotten(init, key, window);
      AllowanceGrows(Restarts(init, key, window), Held(init, key, window), Count(init, key, window), limit);
      hide Held;
    }
  }

  /** Without a restart the map lets through what a counter that never forgets lets through. */
  lemma {:induction false} PassedWithoutRestart(calls: seq<Call>, key: string, window: int, limit: int)
    requires Restarts(calls, key, window) == 0
    ensures Passed(calls, key, window, limit) == Capped(calls, key, window, limit)
    ensures Held(calls, key, window) in {0, Count(calls, key, window)}
  {
    if calls == [] {
    } else {
      var init, last := calls[..|calls| - 1], calls[|calls| - 1];
      assert calls == init + [last];
      hide Held, After, Capped;
      PassedWithoutRestart(init, key, window, limit);
      HeldAfterOneMore(init, last, key, window);
      CappedAppend(init, last, key, window, limit);
    }
  }

  /** With a limit of one, every restart lets one call too many through. */
  lemma {:induction false} PassedAtLimitOne(calls: seq<Call>, key: string, window: int)
    ensures Passed(calls, key, window, 1) == Restarts(calls, key, window) + Min(1, Count(calls, key, window))
  {
    if calls == [] {
    } else {
      var init := calls[..|calls| - 1];
      PassedAtLimitOne(init, key, window);
      HeldIsCountUnlessForgotten(init, key, window);
    }
  }

  /** A clock that never returns to an earlier minute causes no restart. */
  lemma {:induction false} RisingMinutesNeverRestart(calls: seq<Call>, key: string, window: int)
    requires MinutesRise(calls)
    ensures Restarts(calls, key, window) == 0
  {
    if calls == [] {
    } else {
      var n := |calls| - 1;
      MinutesRiseInPrefix(calls, n);
      RisingMinutesNeverRestart(calls[..n], key, window);
      if Window(calls[n].time) == window {
        RisingMinutesForgetNothing(calls[..n], key, window);
        HeldIsCountUnlessForgotten(calls[..n], key, window);
      }
    }
  }

  /** A restart needs a call before it. */
  lemma {:induction false} NothingPassesUncounted(calls: seq<Call>, key: string, window: int)
    ensures Restarts(calls, key, window) > 0 ==> Count(calls, key, window) > 0
  {
    if calls == [] {
    } else {
      NothingPassesUncounted(calls[..|calls| - 1], key, window);
    }
  }

  /** What the local map lets through, with and without restarts. */
  lemma LocalPasses(calls: seq<Call>, key: string, window: int, limit: int)
    ensures Passed(calls, key, window, limit) <= Max(limit, 0) + Max(limit, 0) * Restarts(calls, key, window)
    ensures Restarts(calls, key, window) == 0 ==> Passed(calls, key, window, limit) == Capped(calls, key, window, limit)
    ensures MinutesRise(calls) ==> Restarts(calls, key, window) == 0
  {
    hide Passed, Restarts, Held, MinutesRise, Count;
    PassedWithinAllowance(calls, key, window, limit);
    if Restarts(calls, key, window) == 0 {
      PassedWithoutRestart(calls, key, window, limit);
    }
    if MinutesRise(calls) {
      RisingMinutesNeverRestart(calls, key, window);
    }
  }

  lemma SharedAdmits(events: seq<Event>, call: Call, answered: bool, key: string, window: int, limit: int)
    ensures Admits(events, Shared(call, answered), key, window, limit)
            <==> && answered && call.key == key && Window(call.time) == window
                 && Count(SharedPart(events), key, window) + 1 <= limit
  {
  }

  /** The map before a call, after the cleanup of that call, holds what it held of the minute of the call. */
  lemma LocalAdmits(events: seq<Event>, call: Call, key: string, window: int, limit: int)
    ensures Admits(events, Local(call), key, window, limit)
            <==> && call.key == key && Window(call.time) == window
                 && Held(LocalPart(events), key, window) + 1 <= limit
  {
  }

  lemma PassedAppend(calls: seq<Call>, call: Call, key: string, window: int, limit: int)
    ensures var mine := call.key == key && Window(call.time) == window;
      Passed(calls + [call], key, window, limit)
      == Passed(calls, key, window, limit) + (if mine && Held(calls, key, window) + 1 <= limit then 1 else 0)
  {
    assert (calls + [call])[..|calls|] == calls;
  }

  /** What the two counters let through together, if no answer of Redis is lost. */
  function BothPassed(events: seq<Event>, key: string, window: int, limit: int): int {
    Capped(SharedPart(events), key, window, limit) + Passed(LocalPart(events), key, window, limit)
  }

  lemma OneEventPasses(init: seq<Event>, e: Event, key: string, window: int, limit: int)
    ensures var admitted := if Admits(init, e, key, window, limit) then 1 else 0;
      && BothPassed(init, key, window, limit) + admitted <= BothPassed(init + [e], key, window, limit)
      && ((e.Shared? ==> e.answered) ==>
            BothPassed(init, key, window, limit) + admitted == BothPassed(init + [e], key, window, limit))
  {
    assert (init + [e])[..|init|] == init;
    hide Admits, Capped, Count, Passed, Held;
    match e {
      case Local(call) =>
        assert LocalPart(init + [e]) == LocalPart(init) + [call] && SharedPart(init + [e]) == SharedPart(init);
        LocalAdmits(init, call, key, window, limit);
        PassedAppend(LocalPart(init), call, key, window, limit);
      case Shared(call, answered) =>
        assert SharedPart(init + [e]) == SharedPart(init) + [call] && LocalPart(init + [e]) == LocalPart(init);
        SharedAdmits(init, call, answered, key, window, limit);
        CappedAppend(SharedPart(init), call, key, window, limit);
    }
  }

  /** Admissions are what the two counters let through, less the Redis increments whose answers were lost. */
  lemma {:induction false} AdmissionsAreBothPassed(events: seq<Event>, key: string, window: int, limit: int)
    ensures Admissions(events, key, window, limit) <= BothPassed(events, key, window, limit)
    ensures (forall i :: 0 <= i < |events| && events[i].Shared? ==> events[i].answered) ==>
      Admissions(events, key, window, limit) == BothPassed(events, key, window, limit)
  {
    if events == [] {
    } else {
      hide Admits, BothPassed;
      var init, last := events[..|events| - 1], events[|events| - 1];
      assert events == init + [last];
      OneEventPasses(init, last, key, window, limit);
      AdmissionsAreBothPassed(init, key, window, limit);
    }
  }

  lemma {:induction false} OnePartOnly(events: seq<Event>)
    ensures (forall i :: 0 <= i < |events| ==> events[i].Local?) ==> SharedPart(events) == []
    ensures (forall i :: 0 <= i < |events| ==> events[i].Shared?) ==> LocalPart(events) == []
  {
    if events == [] {
    } else {
      OnePartOnly(events[..|events| - 1]);
    }
  }

  lemma NothingOfNothing(key: string, window: int, limit: int)
    ensures Passed([], key, window, limit) == 0 && Count([], key, window) == 0 && Restarts([], key, window) == 0
  {
  }

  lemma OneMoreTime(n: nat, c: nat)
    ensures c * (1 + n) == c + c * n
  {
  }

  /** All requests are counted by the local map, or all by Redis with an answer. */
  predicate OneBackend(events: seq<Event>) {
    || (forall i :: 0 <= i < |events| ==> events[i].Local?)
    || (forall i :: 0 <= i < |events| ==> events[i].Shared? && events[i].answered)
  }

  /** How often the local map restarts its count of a key in a minute. */
  function LocalRestarts(events: seq<Event>, key: string, window: int): nat {
    Restarts(LocalPart(events), key, window)
  }

  /**
   * For every clock: one backend that restarts no count lets through exactly the requests there
   * are, up to the limit; a restart can add the limit once more.
   */
  lemma OneBackendAdmitsUpToLimit(events: seq<Event>, key: string, window: int, limit: int)
    requires OneBackend(events)
    ensures LocalRestarts(events, key, window) == 0 ==>
      Admissions(events, key, window, limit)
      == Min(Max(limit, 0), Count(SharedPart(events), key, window) + Count(LocalPart(events), key, window))
    ensures Admissions(events, key, window, limit) <= Max(limit, 0) * (1 + LocalRestarts(events, key, window))
    ensures MinutesRise(LocalPart(events)) ==> LocalRestarts(events, key, window) == 0
  {
    OnePartOnly(events);
    NothingOfNothing(key, window, limit);
    hide Passed, Restarts, MinutesRise, Admissions, Count, SharedPart, LocalPart;
    AdmissionsAreBothPassed(events, key, window, limit);
    LocalPasses(LocalPart(events), key, window, limit);
    OneMoreTime(LocalRestarts(events, key, window), Max(limit, 0));
  }

  lemma RestartBreaksLimitOne(events: seq<Event>, key: string, window: int)
    requires forall i :: 0 <= i < |events| ==> events[i].Local?
    requires LocalRestarts(events, key, window) > 0
    ensures Admissions(events, key, window, 1) > Max(1, 0)
  {
    OnePartOnly(events);
    NothingOfNothing(key, window, 1);
    hide Admissions, Passed, Restarts, Count, SharedPart, LocalPart;
    AdmissionsAreBothPassed(events, key, window, 1);
    PassedAtLimitOne(LocalPart(events), key, window);
    NothingPassesUncounted(LocalPart(events), key, window);
  }

  /** The local map keeps every limit in a minute if and only if it restarts no count. */
  lemma LocalMapKeepsLimitIff(events: seq<Event>, key: string, window: int)
    requires forall i :: 0 <= i < |events| ==> events[i].Local?
    ensures (forall limit: int :: Admissions(events, key, window, limit) <= Max(limit, 0))
            <==> LocalRestarts(events, key, window) == 0
  {
    hide Admissions, LocalRestarts;
    if LocalRestarts(events, key, window) == 0 {
      forall limit: int ensures Admissions(events, key, window, limit) <= Max(limit, 0) {
        OneBackendAdmitsUpToLimit(events, key, window, limit);
      }
    } else {
      RestartBreaksLimitOne(events, key, window);
    }
  }

  /**
   * However requests fall back from Redis to the local map, and whatever the clock does, a minute
   * lets through at most twice the limit, and once more for each restart of the local count.
   */
  lemma FallbackAdmitsAtMostTwice(events: seq<Event>, key: string, window: int, limit: int)
    ensures Admissions(events, key, window, limit) <= Max(limit, 0) * (2 + LocalRestarts(events, key, window))
    ensures MinutesRise(LocalPart(events)) ==> Admissions(events, key, window, limit) <= 2 * Max(limit, 0)
  {
    AdmissionsAreBothPassed(events, key, window, limit);
    LocalPasses(LocalPart(events), key, window, limit);
    hide Restarts, Passed, MinutesRise, Admissions;
    assert Max(limit, 0) * (2 + LocalRestarts(events, key, window))
        == 2 * Max(limit, 0) + Max(limit, 0) * LocalRestarts(events, key, window);
  }

  /** How many requests of a key are let through in the 60 seconds from a moment, in nanoseconds, on. */
  function AdmissionsFrom(events: seq<Event>, key: string, from: int, limit: int): nat {
    if events == [] then 0
    else
      var before, e := events[..|events| - 1], events[|events| - 1];
      AdmissionsFrom(before, key, from, limit)
      + (if from <= e.call.time < from + 60_000_000_000 && Admits(before, e, key, Window(e.call.time), limit)
         then 1 else 0)
  }

  /** Such a stretch touches at most two minutes. */
  lemma {:induction false} StretchTouchesTwoMinutes(events: seq<Event>, key: string, from: int, limit: int)
    ensures AdmissionsFrom(events, key, from, limit)
         <= Admissions(events, key, Window(from), limit) + Admissions(events, key, Window(from) + 1, limit)
  {
    if events == [] {
    } else {
      StretchTouchesTwoMinutes(events[..|events| - 1], key, from, limit);
    }
  }

  /** Any 60 seconds on one backend: twice the limit, and once more for each restart in the two minutes. */
  lemma AnyMinuteAdmitsAtMostTwice(events: seq<Event>, key: string, from: int, limit: int)
    requires OneBackend(events)
    ensures AdmissionsFrom(events, key, from, limit)
         <= Max(limit, 0) * (2 + LocalRestarts(events, key, Window(from))
                             + LocalRestarts(events, key, Window(from) + 1))
    ensures MinutesRise(LocalPart(events)) ==> AdmissionsFrom(events, key, from, limit) <= 2 * Max(limit, 0)
  {
    hide Admissions, AdmissionsFrom, LocalRestarts, OneBackend, MinutesRise, Count;
    var first, second := LocalRestarts(events, key, Window(from)), LocalRestarts(events, key, Window(from) + 1);
    StretchTouchesTwoMinutes(events, key, from, limit);
    OneBackendAdmitsUpToLimit(events, key, Window(from), limit);
    OneBackendAdmitsUpToLimit(events, key, Window(from) + 1, limit);
    assert Max(limit, 0) * (1 + first) + Max(limit, 0) * (1 + second) == Max(limit, 0) * (2 + first + second);
  }

  /** With arbitrary fallback any 60 seconds: four times the limit, and once more for each restart. */
  lemma AnyMinuteWithFallback(events: seq<Event>, key: string, from: int, limit: int)
    ensures AdmissionsFrom(events, key, from, limit)
         <= Max(limit, 0) * (4 + LocalRestarts(events, key, Window(from))
                             + LocalRestarts(events, key, Window(from) + 1))
    ensures MinutesRise(LocalPart(events)) ==> AdmissionsFrom(events, key, from, limit) <= 4 * Max(limit, 0)
  {
    hide Admissions, AdmissionsFrom, LocalRestarts, MinutesRise;
    var first, second := LocalRestarts(events, key, Window(from)), LocalRestarts(events, key, Window(from) + 1);
    StretchTouchesTwoMinutes(events, key, from, limit);
    FallbackAdmitsAtMostTwice(events, key, Window(from), limit);
    FallbackAdmitsAtMostTwice(events, key, Window(from) + 1, limit);
    assert Max(limit, 0) * (2 + first) + Max(limit, 0) * (2 + second) == Max(limit, 0) * (4 + first + second);
  }

  // ---------- The limiter itself ----------

  lemma SharedAppend(events: seq<Event>, call: Call, answered: bool)
    ensures LocalPart(events + [Shared(call, answered)]) == LocalPart(events)
    ensures forall key, window ::
      Count(SharedPart(events + [Shared(call, answered)]), key, window)
      == Count(SharedPart(events), key, window) + (if call.key == key && Window(call.time) == window then 1 else 0)
  {
    assert (events + [Shared(call, answered)])[..|events|] == events;
    var calls := SharedPart(events) + [call];
    assert SharedPart(events + [Shared(call, answered)]) == calls && calls[..|calls| - 1] == SharedPart(events);
  }

  lemma LocalAppend(events: seq<Event>, call: Call)
    ensures SharedPart(events + [Local(call)]) == SharedPart(events)
    ensures After(LocalPart(events + [Local(call)])) == Bumped(After(LocalPart(events)), call.key, Window(call.time))
  {
    assert (events + [Local(call)])[..|events|] == events;
    var calls := LocalPart(events) + [call];
    assert LocalPart(events + [Local(call)]) == calls && calls[..|calls| - 1] == LocalPart(events);
  }

  /** The answer of the middleware and its rate-limit headers; `reset` is in seconds, like the wait. */
  datatype Response = Response(admitted: bool, limit: int, remaining: int, reset: int, retryAfter: Option<int>)

  function Tally(counters: map<(string, int), nat>, key: string, window: int): nat {
    if (key, window) in counters then counters[(key, window)] else 0
  }

  ghost predicate CountersRight(counters: map<(string, int), nat>, calls: seq<Call>) {
    forall key, window :: Tally(counters, key, window) == Count(calls, key, window)
  }

  /** INCR on the counter of a call. */
  lemma CountersBump(counters: map<(string, int), nat>, events: seq<Event>, call: Call, answered: bool)
    requires CountersRight(counters, SharedPart(events))
    ensures var counter := (call.key, Window(call.time));
      CountersRight(counters[counter := 1 + Tally(counters, call.key, Window(call.time))],
                    SharedPart(events + [Shared(call, answered)]))
  {
    SharedAppend(events, call, answered);
  }

  class Limiter {
    const limit: int
    const redis: bool
    var local: map<string, Bucket>
    /** The counters on the Redis server, by key and minute. */
    var counters: map<(string, int), nat>
    ghost var events: seq<Event>

    ghost predicate Valid()
      reads this
    {
      local == After(LocalPart(events)) && CountersRight(counters, SharedPart(events))
    }

    constructor (redis: bool, limit: int)
      ensures Valid() && events == [] && this.limit == limit && this.redis == redis
    {
      this.redis, this.limit := redis, limit;
      local, counters, events := map[], map[], [];
    }

    /** The delete loop over the map, in whatever order the keys come. */
    method CleanupLocal(currentWindow: int)
      modifies this`local
      ensures local == Cleaned(old(local), currentWindow)
      ensures if |old(local)| < 512 then local == old(local)
              else local == map key | key in old(local) && old(local)[key].window >= currentWindow :: old(local)[key]
    {
      if |local| < CLEANUP_SIZE {
        return;
      }
      var keys := local.Keys;
      while keys != {}
        invariant keys <= old(local).Keys
        invariant local == map key | key in old(local)
                                     && (key in keys || !(old(local)[key].window < currentWindow)) :: old(local)[key]
        decreases keys
      {
        var key :| key in keys;
        if local[key].window < currentWindow {
          local := local - {key};
        }
        keys := keys - {key};
      }
    }

    method IncrementLocal(key: string, now: int) returns (count: nat)
      requires Valid()
      modifies this`local, this`events
      ensures Valid() && events == old(events) + [Local(Call(key, now))]
      ensures count == Given(old(events), Local(Call(key, now)))
    {
      var window := Window(now);
      LocalAppend(events, Call(key, now));
      CleanupLocal(window);
      var value := if key in local then local[key] else Bucket(0, 0);
      if key !in local || value.window != window {
        value := Bucket(window, 0);
      }
      value := value.(count := value.count + 1);
      assert value == Bucket(window, Counted(old(local), key, window));
      local := local[key := value];
      count := value.count;
      events := events + [Local(Call(key, now))];
    }

    /** One atomic increment on Redis; `reached` and `answered` say how far the exchange got. */
    method Increment(key: string, now: int, reached: bool, answered: bool) returns (error: bool, count: nat)
      requires Valid()
      modifies this`counters, this`events
      ensures Valid() && error == !(redis && reached && answered)
      ensures events == old(events) + if redis && reached then [Shared(Call(key, now), answered)] else []
      ensures !error ==> count == Given(old(events), Shared(Call(key, now), true))
    {
      error, count := true, 0;
      if redis && reached {
        var counter := (key, Window(now));
        CountersBump(counters, events, Call(key, now), answered);
        SharedAppend(events, Call(key, now), answered);
        hide SharedPart, LocalPart, Count, After;
        assert Tally(counters, key, Window(now)) == Count(SharedPart(events), key, Window(now));
        counters := counters[counter := 1 + Tally(counters, key, Window(now))];
        events := events + [Shared(Call(key, now), answered)];
        if answered {
          error, count := false, counters[counter];
        }
      }
    }

    /** Other requests take their turns at the counters. */
    method Others(steps: seq<Event>)
      requires Valid() && (!redis ==> forall i :: 0 <= i < |steps| ==> steps[i].Local?)
      modifies this
      ensures Valid() && events == old(events) + steps
    {
      for i := 0 to |steps|
        invariant Valid() && events == old(events) + steps[..i]
      {
        match steps[i] {
          case Local(call) =>
            var _ := IncrementLocal(call.key, call.time);
          case Shared(call, answered) =>
            var _, _ := Increment(call.key, call.time, true, answered);
        }
        assert steps[..i + 1] == steps[..i] + [steps[i]];
      }
      assert steps[..|steps|] == steps;
    }

    /**
     * One request through the middleware, with the turns of others between its attempt at Redis
     * and its fallback. It is let through exactly when the event that counts it admits it, and
     * the headers tell the limit, what is left of it, when the minute ends and, to a refused
     * request, how many seconds to wait. The clock is read at four moments.
     */
    method Handle(key: string, redisTime: int, reached: bool, answered: bool, between: seq<Event>,
                  localTime: int, resetTime: int, waitTime: int)
      returns (response: Response)
      requires Valid() && (!redis ==> forall i :: 0 <= i < |between| ==> between[i].Local?)
      modifies this
      ensures Valid()
      ensures var shared := redis && reached;
        var tried := old(events) + (if shared then [Shared(Call(key, redisTime), answered)] else []) + between;
        var counts := if shared && answered then Shared(Call(key, redisTime), true) else Local(Call(key, localTime));
        var before := if shared && answered then old(events) else tried;
        && events == (if shared && answered then tried else tried + [counts])
        && (response.admitted <==> Admits(before, counts, key, Window(counts.call.time), limit))
        && response.remaining == Max(0, limit - Given(before, counts))
      ensures response.limit == limit && (response.admitted <==> response.retryAfter == None)
      ensures resetTime < response.reset * 1_000_000_000 <= resetTime + 60_000_000_000 && response.reset % 60 == 0
      ensures !response.admitted ==>
        var wait, left := response.retryAfter.value, response.reset * 1_000_000_000 - waitTime;
        if left < 1_000_000_000 then wait == 1 else wait * 1_000_000_000 <= left < (wait + 1) * 1_000_000_000
    {
      var error, count := Increment(key, redisTime, reached, answered);
      Others(between);
      if error {
        count := IncrementLocal(key, localTime);
      }
      var reset := (Window(resetTime) + 1) * 60;
      response := Response(true, limit, Max(0, limit - count), reset, None);
      if count > limit {
        var wait := Max(1, (reset * NANOS_PER_SECOND - waitTime) / NANOS_PER_SECOND);
        response := response.(admitted := false, retryAfter := Some(wait));
      }
    }
  }
}
