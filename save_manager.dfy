/**
 * src/utils/saveManager.js: reading the two save slots back from the
 * characters collection, and the retry schedule of a save.  The collection
 * is a sequence of documents in the order the snapshot lists them; whether
 * each save call succeeds is a function of its attempt number; the timers
 * become `Wait` events in the order they would fire.
 */
module SaveManager {
  import opened Wrappers
  import opened Text

  // ----- Document ids -----

  /** The value of a string of decimal digits. */
  function DigitsValue(t: string): int
    requires forall i | 0 <= i < |t| :: IsDigit(t[i])
  {
    if t == [] then 0
    else 10 * DigitsValue(t[..|t| - 1]) + (t[|t| - 1] as int - '0' as int)
  }

  /**
   * `Number(id)` for the ids a save writes: surrounding whitespace is
   * ignored, an empty string is 0, a run of decimal digits is its value,
   * and anything else is NaN (None).
   */
  function NumberOf(id: string): Option<int> {
    var t := Trim(id);
    if t == [] then Some(0)
    else if forall i | 0 <= i < |t| :: IsDigit(t[i]) then Some(DigitsValue(t))
    else None
  }

  lemma {:induction false} DigitsOfDecimal(n: nat)
    ensures var s := DecimalString(n); (forall i | 0 <= i < |s| :: IsDigit(s[i])) && DigitsValue(s) == n
  {
    var s := DecimalString(n);
    if n >= 10 {
      DigitsOfDecimal(n / 10);
      assert s[..|s| - 1] == DecimalString(n / 10);
    }
  }

  /** A run of digits reads as its value. */
  lemma NumberOfDigits(t: string)
    requires t != [] && forall i | 0 <= i < |t| :: IsDigit(t[i])
    ensures NumberOf(t) == Some(DigitsValue(t))
  {
    assert IsDigit(t[0]) && IsDigit(t[|t| - 1]);
    TrimOfTrimmed(t);
  }

  /** The id a save writes for slot `n`, `String(n)`, reads back as `n`. */
  lemma NumberOfString(n: nat)
    ensures NumberOf(DecimalString(n)) == Some(n)
  {
    DigitsOfDecimal(n);
    NumberOfDigits(DecimalString(n));
  }

  // ----- loadCharacterSlots -----

  /** A document of the characters collection. */
  datatype Doc<T> = Doc(id: string, data: T)

  /** The slot an id names: 1 or 2, or 0 for any other id. */
  function SlotKey(id: string): int {
    if NumberOf(id) == Some(1) then 1 else if NumberOf(id) == Some(2) then 2 else 0
  }

  /**
   * The slots once the documents have been visited in order, each document
   * going to the slot `key` gives its id (when 1 or 2), the later document
   * winning.
   */
  function SlotsBy<T>(key: string -> int, docs: seq<Doc<T>>): map<int, Option<T>> {
    if docs == [] then map[1 := None, 2 := None]
    else
      var prev := SlotsBy(key, docs[..|docs| - 1]);
      var d := docs[|docs| - 1];
      var k := key(d.id);
      if k == 1 || k == 2 then prev[k := Some(d.data)] else prev
  }

  /** The slots `loadCharacterSlots` returns for the documents. */
  function SlotsOf<T>(docs: seq<Doc<T>>): map<int, Option<T>> {
    SlotsBy(SlotKey, docs)
  }

  /** Visiting one more document: it fills the slot its key names, if 1 or 2. */
  lemma SlotsByStep<T>(key: string -> int, docs: seq<Doc<T>>, i: nat)
    requires i < |docs|
    ensures var prev := SlotsBy(key, docs[..i]); var k := key(docs[i].id);
      SlotsBy(key, docs[..i + 1]) == if k == 1 || k == 2 then prev[k := Some(docs[i].data)] else prev
  {
    assert docs[..i + 1][..i] == docs[..i];
  }

  /** `loadCharacterSlots(uid)` over the snapshot's documents: the `forEach` filling the slots. */
  method LoadCharacterSlots<T>(docs: seq<Doc<T>>) returns (slots: map<int, Option<T>>)
    ensures slots == SlotsOf(docs)
  {
    slots := map[1 := None, 2 := None];
    var i := 0;
    while i < |docs|
      invariant 0 <= i <= |docs|
      invariant slots == SlotsBy(SlotKey, docs[..i])
    {
      var docSnap := docs[i];
      SlotsByStep(SlotKey, docs, i);
      var slotId := SlotKey(docSnap.id);
      if slotId == 1 || slotId == 2 {
        slots := slots[slotId := Some(docSnap.data)];
      }
      i := i + 1;
    }
    assert docs[..|docs|] == docs;
  }

  /**
   * The slots always have exactly the keys 1 and 2; a slot is empty exactly
   * when no document names it, and otherwise holds the data of the last
   * document that does.
   */
  lemma {:induction false} SlotsByMeaning<T>(key: string -> int, docs: seq<Doc<T>>, k: int)
    requires k == 1 || k == 2
    ensures SlotsBy(key, docs).Keys == {1, 2}
    ensures SlotsBy(key, docs)[k].None? <==> forall i | 0 <= i < |docs| :: key(docs[i].id) != k
    ensures SlotsBy(key, docs)[k].Some? ==>
      exists i | 0 <= i < |docs| ::
        && key(docs[i].id) == k && docs[i].data == SlotsBy(key, docs)[k].value
        && forall j | i < j < |docs| :: key(docs[j].id) != k
  {
    if docs != [] {
      var prefix := docs[..|docs| - 1];
      SlotsByMeaning(key, prefix, k);
      var last := |docs| - 1;
      assert forall i | 0 <= i < last :: docs[i] == prefix[i];
      if key(docs[last].id) == k {
        assert SlotsBy(key, docs)[k] == Some(docs[last].data);
      } else if SlotsBy(key, docs)[k].Some? {
        var i :| 0 <= i < |prefix| && key(prefix[i].id) == k && prefix[i].data == SlotsBy(key, prefix)[k].value
                 && forall j | i < j < |prefix| :: key(prefix[j].id) != k;
        assert docs[i] == prefix[i];
      }
    }
  }

  /** A document whose id names neither slot 1 nor 2 changes nothing. */
  lemma OtherIdsIgnored<T>(docs: seq<Doc<T>>, d: Doc<T>)
    requires NumberOf(d.id) != Some(1) && NumberOf(d.id) != Some(2)
    ensures SlotsOf(docs + [d]) == SlotsOf(docs)
  {
    assert (docs + [d])[..|docs|] == docs;
  }

  // ----- saveWithRetry -----

  /** What a save chain does, in order: a save call, a timer, or the warning callback. */
  datatype Event = SaveCall(attempt: nat) | Wait(ms: nat) | Warn(show: bool)

  function Pow2(k: nat): nat {
    if k == 0 then 1 else 2 * Pow2(k - 1)
  }

  /** `Math.pow(2, attempt) * 1000`: the milliseconds before retrying a failed attempt. */
  function Delay(attempt: nat): nat {
    Pow2(attempt) * 1000
  }

  /**
   * `saveWithRetry(..., attempt)`: a save call; on success the warning is
   * cleared; on failure before attempt 3 a retry after 2^attempt seconds;
   * on failure at attempt 3 or later the warning is shown.
   */
  function SaveWithRetry(succeeds: nat -> bool, attempt: nat): seq<Event>
    decreases 3 - attempt
  {
    if succeeds(attempt) then [SaveCall(attempt), Warn(false)]
    else if attempt < 3 then [SaveCall(attempt), Wait(Delay(attempt))] + SaveWithRetry(succeeds, attempt + 1)
    else [SaveCall(attempt), Warn(true)]
  }

  /** The attempts of the save calls, in order. */
  function Calls(ev: seq<Event>): seq<nat> {
    if |ev| == 0 then [] else (if ev[0].SaveCall? then [ev[0].attempt] else []) + Calls(ev[1..])
  }

  /** The delays of the timers, in order. */
  function Waits(ev: seq<Event>): seq<nat> {
    if |ev| == 0 then [] else (if ev[0].Wait? then [ev[0].ms] else []) + Waits(ev[1..])
  }

  /** The values the warning callback is called with, in order. */
  function Warnings(ev: seq<Event>): seq<bool> {
    if |ev| == 0 then [] else (if ev[0].Warn? then [ev[0].show] else []) + Warnings(ev[1..])
  }

  /** The three filters over a chain that starts with one known event. */
  lemma FiltersOfOne(e: Event, rest: seq<Event>)
    ensures Calls([e] + rest) == (if e.SaveCall? then [e.attempt] else []) + Calls(rest)
    ensures Waits([e] + rest) == (if e.Wait? then [e.ms] else []) + Waits(rest)
    ensures Warnings([e] + rest) == (if e.Warn? then [e.show] else []) + Warnings(rest)
  {
    var ev := [e] + rest;
    assert ev[0] == e;
    assert ev[1..] == rest;
  }

  /** The last step of a chain: on success, or at attempt 3, one call and then the warning callback. */
  lemma ChainLast(succeeds: nat -> bool, a: nat)
    requires succeeds(a) || a >= 3
    ensures var ev := SaveWithRetry(succeeds, a);
      && Calls(ev) == [a] && Waits(ev) == [] && Warnings(ev) == [!succeeds(a)]
      && ev[|ev| - 1] == Warn(!succeeds(a))
  {
    var ev := SaveWithRetry(succeeds, a);
    var last := Warn(!succeeds(a));
    assert ev == [SaveCall(a)] + [last];
    assert [last] == [last] + [];
    FiltersOfOne(SaveCall(a), [last]);
    FiltersOfOne(last, []);
  }

  /** A failed attempt before 3 is one save call, a wait of 2^a seconds, then the chain from the next attempt. */
  lemma ChainNextShape(succeeds: nat -> bool, a: nat)
    requires !succeeds(a) && a < 3
    ensures var ev := SaveWithRetry(succeeds, a);
      var rest := SaveWithRetry(succeeds, a + 1);
      ev == [SaveCall(a)] + ([Wait(Delay(a))] + rest) && |rest| >= 2
  {
    var rest := SaveWithRetry(succeeds, a + 1);
    assert SaveWithRetry(succeeds, a) == [SaveCall(a), Wait(Delay(a))] + rest;
  }

  /** The calls of a call of attempt `a` and a wait, followed by `rest`. */
  lemma CallsOfCallWait(a: nat, d: nat, rest: seq<Event>)
    ensures Calls([SaveCall(a)] + ([Wait(d)] + rest)) == [a] + Calls(rest)
  {
    FiltersOfOne(SaveCall(a), [Wait(d)] + rest);
    FiltersOfOne(Wait(d), rest);
  }

  /** The waits of a call and a wait of `d` ms, followed by `rest`. */
  lemma WaitsOfCallWait(a: nat, d: nat, rest: seq<Event>)
    ensures Waits([SaveCall(a)] + ([Wait(d)] + rest)) == [d] + Waits(rest)
  {
    FiltersOfOne(SaveCall(a), [Wait(d)] + rest);
    FiltersOfOne(Wait(d), rest);
  }

  /** The warnings of a call and a wait, followed by `rest`. */
  lemma WarningsOfCallWait(a: nat, d: nat, rest: seq<Event>)
    ensures Warnings([SaveCall(a)] + ([Wait(d)] + rest)) == Warnings(rest)
  {
    FiltersOfOne(SaveCall(a), [Wait(d)] + rest);
    FiltersOfOne(Wait(d), rest);
  }

  /** A call and a wait put before a non-empty `rest` leave its last event last. */
  lemma LastOfCallWait(a: nat, d: nat, rest: seq<Event>)
    requires |rest| > 0
    ensures var ev := [SaveCall(a)] + ([Wait(d)] + rest); ev[|ev| - 1] == rest[|rest| - 1]
  {
  }

  /** After a failed attempt a before 3, the calls are attempt a, then those of the chain from a + 1. */
  lemma ChainNextCalls(succeeds: nat -> bool, a: nat)
    requires !succeeds(a) && a < 3
    ensures Calls(SaveWithRetry(succeeds, a)) == [a] + Calls(SaveWithRetry(succeeds, a + 1))
  {
    ChainNextShape(succeeds, a);
    CallsOfCallWait(a, Delay(a), SaveWithRetry(succeeds, a + 1));
  }

  /** After a failed attempt a before 3, the waits are 2^a seconds, then those of the chain from a + 1. */
  lemma ChainNextWaits(succeeds: nat -> bool, a: nat)
    requires !succeeds(a) && a < 3
    ensures Waits(SaveWithRetry(succeeds, a)) == [Delay(a)] + Waits(SaveWithRetry(succeeds, a + 1))
  {
    ChainNextShape(succeeds, a);
    WaitsOfCallWait(a, Delay(a), SaveWithRetry(succeeds, a + 1));
  }

  /** After a failed attempt a before 3, the warnings are those of the chain from a + 1. */
  lemma ChainNextWarnings(succeeds: nat -> bool, a: nat)
    requires !succeeds(a) && a < 3
    ensures Warnings(SaveWithRetry(succeeds, a)) == Warnings(SaveWithRetry(succeeds, a + 1))
  {
    ChainNextShape(succeeds, a);
    WarningsOfCallWait(a, Delay(a), SaveWithRetry(succeeds, a + 1));
  }

  /** After a failed attempt a before 3, the last event is that of the chain from a + 1. */
  lemma ChainNextLast(succeeds: nat -> bool, a: nat)
    requires !succeeds(a) && a < 3
    ensures var ev := SaveWithRetry(succeeds, a);
      var rest := SaveWithRetry(succeeds, a + 1);
      |rest| > 0 && ev[|ev| - 1] == rest[|rest| - 1]
  {
    ChainNextShape(succeeds, a);
    LastOfCallWait(a, Delay(a), SaveWithRetry(succeeds, a + 1));
  }

  /** The number of save calls a chain from `a` makes: up to the first success, and never past attempt 3. */
  function Tries(succeeds: nat -> bool, a: nat): nat
    decreases 3 - a
  {
    if succeeds(a) || a >= 3 then 1 else 1 + Tries(succeeds, a + 1)
  }

  /**
   * From attempt `a` on (a <= 3), a chain tries between 1 and 4 - a times;
   * every attempt but the last failed, and the last succeeded unless it
   * was attempt 3.
   */
  lemma {:induction false} TriesMeaning(succeeds: nat -> bool, a: nat)
    requires a <= 3
    ensures var n := Tries(succeeds, a);
      && 1 <= n <= 4 - a
      && (forall k | a <= k < a + n - 1 :: !succeeds(k))
      && (n < 4 - a ==> succeeds(a + n - 1))
    decreases 3 - a
  {
    if !(succeeds(a) || a >= 3) {
      TriesMeaning(succeeds, a + 1);
    }
  }

  /** A chain from `a` calls save for attempts a, a+1, ..., once per try. */
  lemma {:induction false} CallsOfChain(succeeds: nat -> bool, a: nat)
    requires a <= 3
    ensures var calls := Calls(SaveWithRetry(succeeds, a));
      && |calls| == Tries(succeeds, a)
      && forall k | 0 <= k < |calls| :: calls[k] == a + k
    decreases 3 - a
  {
    if succeeds(a) || a >= 3 {
      ChainLast(succeeds, a);
    } else {
      ChainNextCalls(succeeds, a);
      CallsOfChain(succeeds, a + 1);
      var m := Tries(succeeds, a + 1);
      assert Tries(succeeds, a) == 1 + m;
      ConsCalls(a, Calls(SaveWithRetry(succeeds, a)), Calls(SaveWithRetry(succeeds, a + 1)), m);
    }
  }

  /**
   * From attempt `a` on (a <= 3), a chain makes between 1 and 4 - a save
   * calls, for attempts a, a+1, ... in turn; every attempt but the last
   * failed, and the last succeeded unless it was attempt 3.
   */
  lemma RetryCalls(succeeds: nat -> bool, a: nat)
    requires a <= 3
    ensures var ev := SaveWithRetry(succeeds, a);
      var n := Tries(succeeds, a);
      && |Calls(ev)| == n && 1 <= n <= 4 - a
      && (forall k | 0 <= k < n :: Calls(ev)[k] == a + k)
      && (forall k | a <= k < a + n - 1 :: !succeeds(k))
      && (n < 4 - a ==> succeeds(a + n - 1))
  {
    TriesMeaning(succeeds, a);
    CallsOfChain(succeeds, a);
  }

  /** Attempt `a` put before the calls a+1, a+2, ... of the rest of a chain gives the calls a, a+1, .... */
  lemma ConsCalls(a: nat, whole: seq<nat>, tail: seq<nat>, m: nat)
    requires whole == [a] + tail && |tail| == m
    requires forall k | 0 <= k < m :: tail[k] == a + 1 + k
    ensures |whole| == 1 + m && forall k | 0 <= k < 1 + m :: whole[k] == a + k
  {
    forall k | 0 <= k < 1 + m
      ensures whole[k] == a + k
    {
      if k > 0 {
        assert whole[k] == tail[k - 1];
      }
    }
  }

  /** The waits of a chain from `a`, by attempt: 2^k seconds after each failed attempt k before the last. */
  function ChainWaits(succeeds: nat -> bool, a: nat): seq<nat>
    decreases 3 - a
  {
    if succeeds(a) || a >= 3 then [] else [Delay(a)] + ChainWaits(succeeds, a + 1)
  }

  lemma {:induction false} WaitsOfChain(succeeds: nat -> bool, a: nat)
    ensures Waits(SaveWithRetry(succeeds, a)) == ChainWaits(succeeds, a)
    decreases 3 - a
  {
    if succeeds(a) || a >= 3 {
      ChainLast(succeeds, a);
    } else {
      ChainNextWaits(succeeds, a);
      WaitsOfChain(succeeds, a + 1);
    }
  }

  lemma {:induction false} ChainWaitsDelays(succeeds: nat -> bool, a: nat)
    requires a <= 3
    ensures |ChainWaits(succeeds, a)| == Tries(succeeds, a) - 1
    ensures forall k | 0 <= k < Tries(succeeds, a) - 1 :: ChainWaits(succeeds, a)[k] == Delay(a + k)
    decreases 3 - a
  {
    if !(succeeds(a) || a >= 3) {
      ChainWaitsDelays(succeeds, a + 1);
      var ws, wr := ChainWaits(succeeds, a), ChainWaits(succeeds, a + 1);
      forall k | 0 <= k < Tries(succeeds, a) - 1
        ensures ws[k] == Delay(a + k)
      {
        if k > 0 {
          assert ws[k] == wr[k - 1];
          assert (a + 1) + (k - 1) == a + k;
        }
      }
    }
  }

  /** Between consecutive calls the chain waits 2^k seconds after the failed attempt k. */
  lemma RetryWaits(succeeds: nat -> bool, a: nat)
    requires a <= 3
    ensures var ev := SaveWithRetry(succeeds, a);
      var n := Tries(succeeds, a);
      && |Waits(ev)| == n - 1
      && (forall k | 0 <= k < n - 1 :: Waits(ev)[k] == Delay(a + k))
  {
    WaitsOfChain(succeeds, a);
    ChainWaitsDelays(succeeds, a);
  }

  /** The attempt a chain from `a` ends on: the first success, or attempt 3. */
  function FinalAttempt(succeeds: nat -> bool, a: nat): nat
    decreases 3 - a
  {
    if succeeds(a) || a >= 3 then a else FinalAttempt(succeeds, a + 1)
  }

  /** The final attempt is the last one tried. */
  lemma {:induction false} FinalAttemptIsLastTry(succeeds: nat -> bool, a: nat)
    ensures FinalAttempt(succeeds, a) == a + Tries(succeeds, a) - 1
    decreases 3 - a
  {
    if !(succeeds(a) || a >= 3) {
      FinalAttemptIsLastTry(succeeds, a + 1);
    }
  }

  /** The warning callback is called once, with true exactly when the final attempt failed. */
  lemma {:induction false} WarningsOfChain(succeeds: nat -> bool, a: nat)
    ensures Warnings(SaveWithRetry(succeeds, a)) == [!succeeds(FinalAttempt(succeeds, a))]
    decreases 3 - a
  {
    if succeeds(a) || a >= 3 {
      ChainLast(succeeds, a);
    } else {
      ChainNextWarnings(succeeds, a);
      WarningsOfChain(succeeds, a + 1);
    }
  }

  /** The last event of a chain is the warning callback for the final attempt. */
  lemma {:induction false} LastOfChain(succeeds: nat -> bool, a: nat)
    ensures var ev := SaveWithRetry(succeeds, a); |ev| > 0 && ev[|ev| - 1] == Warn(!succeeds(FinalAttempt(succeeds, a)))
    decreases 3 - a
  {
    if succeeds(a) || a >= 3 {
      ChainLast(succeeds, a);
    } else {
      ChainNextLast(succeeds, a);
      LastOfChain(succeeds, a + 1);
    }
  }

  /** The warning callback is called exactly once, last, with true exactly when the last attempt failed. */
  lemma RetryWarnings(succeeds: nat -> bool, a: nat)
    ensures var ev := SaveWithRetry(succeeds, a);
      var n := Tries(succeeds, a);
      && Warnings(ev) == [!succeeds(a + n - 1)]
      && ev[|ev| - 1] == Warn(!succeeds(a + n - 1))
  {
    WarningsOfChain(succeeds, a);
    LastOfChain(succeeds, a);
    FinalAttemptIsLastTry(succeeds, a);
  }

  /**
   * A save chain as callers start it: at most 4 save calls, one more than
   * the "up to 3 attempts" of its documentation; waits of 1, 2 and 4
   * seconds in that order; the warning shown exactly when all four calls
   * failed, and cleared otherwise.
   */
  lemma SaveChainFromStart(succeeds: nat -> bool)
    ensures var ev := SaveWithRetry(succeeds, 0);
      && 1 <= |Calls(ev)| <= 4
      && Waits(ev) == [1000, 2000, 4000][..|Calls(ev)| - 1]
      && |Warnings(ev)| == 1
      && (Warnings(ev)[0] <==> !succeeds(0) && !succeeds(1) && !succeeds(2) && !succeeds(3))
  {
    var ev := SaveWithRetry(succeeds, 0);
    RetryCalls(succeeds, 0);
    RetryWaits(succeeds, 0);
    RetryWarnings(succeeds, 0);
    var n := |Calls(ev)|;
    assert Delay(0) == 1000 && Delay(1) == 2000 && Delay(2) == 4000;
    assert Waits(ev) == [1000, 2000, 4000][..n - 1];
    if n < 4 {
      assert succeeds(n - 1);
    }
  }
}
