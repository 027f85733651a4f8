/** ParkingLot: a 32-bit word that counts signals in its higher bits and remembers a stop in its lowest. */
module ParkingLot {
  import opened Arithmetic
  import opened Parking

  const WORD := 0x1_0000_0000

  /** The word after `signals` signals, stopped or not: `fetch_add(1 << 1)` each time, `fetch_or(1)` for stop. */
  function WordOf(signals: nat, stopped: bool): nat {
    (2 * signals + (if stopped then 1 else 0)) % WORD
  }

  predicate Odd(word: nat) {
    word % 2 == 1
  }

  /** The lowest bit tells whether the lot was stopped, whatever the number of signals. */
  lemma LowestBitIsStop(signals: nat, stopped: bool)
    ensures Odd(WordOf(signals, stopped)) <==> stopped
  {
    var w := 2 * signals + (if stopped then 1 else 0);
    var q := w / WORD;
    assert WordOf(signals, stopped) == w - q * WORD;
    assert q * WORD == 2 * (q * 0x8000_0000);
  }

  lemma WordIs(signals: nat, stopped: bool)
    ensures WordOf(signals, stopped) == 2 * (signals % SIGNAL_MODULUS) + (if stopped then 1 else 0)
  {
    var q, r := signals / SIGNAL_MODULUS, signals % SIGNAL_MODULUS;
    var b := if stopped then 1 else 0;
    assert 2 * signals + b == q * WORD + (2 * r + b);
    SplitIndex(WORD, q, 2 * r + b);
  }

  /** Two states of a lot look the same exactly when a multiple of 2^31 signals and no stop lies between. */
  lemma SameWordIff(a: nat, stoppedA: bool, b: nat, stoppedB: bool)
    ensures WordOf(a, stoppedA) == WordOf(b, stoppedB)
       <==> a % SIGNAL_MODULUS == b % SIGNAL_MODULUS && stoppedA == stoppedB
  {
    WordIs(a, stoppedA);
    WordIs(b, stoppedB);
  }

  /** Comparing signal counts modulo 2^31, as `Parking` does, is comparing the words. */
  lemma LooksUnchangedIsSameWord(s: State, w: nat)
    requires At(s, w)
    ensures LooksUnchanged(s, w) <==> WordOf(s.lots[s.workers[w].lot], false) == WordOf(s.workers[w].saved, false)
  {
    SameWordIff(s.lots[s.workers[w].lot], false, s.workers[w].saved, false);
  }

  class Lot {
    var pendingSignal: nat
    /** How many workers sleep in futex_wait on the word. */
    var sleepers: nat
    ghost var signals: nat
    ghost var stopped: bool

    ghost predicate Valid()
      reads this
    {
      pendingSignal == WordOf(signals, stopped)
    }

    constructor ()
      ensures Valid() && signals == 0 && !stopped && sleepers == 0
    {
      pendingSignal, sleepers, signals, stopped := 0, 0, 0, false;
    }

    /** Returns the number of workers woken up. */
    method Signal(num: nat) returns (woken: nat)
      requires Valid()
      modifies this`pendingSignal, this`sleepers, this`signals
      ensures Valid() && signals == old(signals) + num
      ensures woken <= num && sleepers == old(sleepers) - woken && (woken < num ==> sleepers == 0)
    {
      WordIs(signals, stopped);
      WordIs(signals + num, stopped);
      AddSignals(signals, num, stopped);
      pendingSignal := (pendingSignal + 2 * num) % WORD;
      signals := signals + num;
      woken := Min(num, sleepers);
      sleepers := sleepers - woken;
    }

    /** Blocks exactly when neither a stop nor, up to a multiple of 2^31, a signal came since `saved` was
        saved, after `savedSignals` signals. */
    method Wait(saved: nat, ghost savedSignals: nat) returns (blocks: bool)
      requires Valid() && saved == WordOf(savedSignals, false)
      modifies this`sleepers
      ensures Valid() && (blocks <==> !stopped && signals % SIGNAL_MODULUS == savedSignals % SIGNAL_MODULUS)
      ensures sleepers == old(sleepers) + (if blocks then 1 else 0)
    {
      SameWordIff(savedSignals, false, signals, stopped);
      blocks := pendingSignal == saved;
      if blocks {
        sleepers := sleepers + 1;
      }
    }

    /** Wakes the sleepers, at most 10000, and makes the lot unwaitable for ever. */
    method Stop()
      requires Valid()
      modifies this`pendingSignal, this`sleepers, this`stopped
      ensures Valid() && stopped && Odd(pendingSignal)
      ensures sleepers == old(sleepers) - Min(old(sleepers), 10000)
    {
      LowestBitIsStop(signals, stopped);
      LowestBitIsStop(signals, true);
      WordIs(signals, stopped);
      WordIs(signals, true);
      if pendingSignal % 2 == 0 {
        pendingSignal := pendingSignal + 1;
      }
      stopped := true;
      sleepers := sleepers - Min(sleepers, 10000);
    }
  }

  lemma AddSignals(signals: nat, num: nat, stopped: bool)
    ensures (WordOf(signals, stopped) + 2 * num) % WORD == WordOf(signals + num, stopped)
  {
    var w := 2 * signals + (if stopped then 1 else 0);
    var q, r := w / WORD, w % WORD;
    var p, t := (r + 2 * num) / WORD, (r + 2 * num) % WORD;
    assert w + 2 * num == (q + p) * WORD + t;
    SplitIndex(WORD, q + p, t);
  }
}
