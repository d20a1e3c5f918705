/** The reconnect loop of connector/pkg/gatewayclient/client.go (Run): the delays between
    attempts, in 64-bit nanoseconds that wrap around. */
module Backoff {
  import opened Protocol
  import opened Config

  /** A nil return of connectAndServe, an authentication failure, or any other error. */
  datatype Outcome = Nil | AuthFailed | Failed

  const TwoTo62: int := 0x4000_0000_0000_0000
  const Second: int := 1_000_000_000

  function Wrap(x: int): int64 {
    (x + 0x8000_0000_0000_0000) % 0x1_0000_0000_0000_0000 - 0x8000_0000_0000_0000
  }

  /** The delay in force after one more failure. */
  function Next(backoff: int64, max: int64): int64 {
    var doubled := Wrap(backoff * 2);
    if doubled > max then max else doubled
  }

  /** The delay after n failures in a row, as the machine computes it. */
  function Wait(initial: int64, max: int64, n: nat): int64 {
    if n == 0 then initial else Next(Wait(initial, max, n - 1), max)
  }

  /** The failures since the last nil return, before the k-th attempt. */
  function Streak(outcomes: seq<Outcome>, k: nat): nat
    requires k <= |outcomes|
  {
    if k == 0 || outcomes[k - 1] == Nil then 0 else Streak(outcomes, k - 1) + 1
  }

  /** The attempts made: all up to the first authentication failure. */
  function Served(outcomes: seq<Outcome>): nat {
    if outcomes == [] || outcomes[0] == AuthFailed then 0 else 1 + Served(outcomes[1..])
  }

  lemma {:induction false} ServedAt(outcomes: seq<Outcome>, k: nat)
    requires k <= |outcomes| && forall j :: 0 <= j < k ==> outcomes[j] != AuthFailed
    requires k == |outcomes| || outcomes[k] == AuthFailed
    ensures Served(outcomes) == k
  {
    if k > 0 {
      ServedAt(outcomes[1..], k - 1);
    }
  }

  /** Of the first n attempts exactly the failed ones were followed by a delay, each the one for the
      failures in a row before it. */
  ghost predicate Recorded(delays: map<nat, int64>, initial: int64, max: int64, outcomes: seq<Outcome>, n: nat) {
    && n <= |outcomes|
    && (forall k :: k in delays <==> 0 <= k < n && outcomes[k] == Failed)
    && (forall k :: k in delays ==> delays[k] == Wait(initial, max, Streak(outcomes, k)))
  }

  /** The loop before its k-th pass: the delays so far, and the next one. */
  ghost predicate Looping(
    delays: map<nat, int64>, backoff: int64, initial: int64, max: int64, outcomes: seq<Outcome>, k: nat)
  {
    && Recorded(delays, initial, max, outcomes, k) && backoff == Wait(initial, max, Streak(outcomes, k))
    && forall j :: 0 <= j < k ==> outcomes[j] != AuthFailed
  }

  lemma LoopStarts(initial: int64, max: int64, outcomes: seq<Outcome>)
    ensures Looping(map[], initial, initial, max, outcomes, 0)
  {
  }

  lemma LoopResets(
    delays: map<nat, int64>, backoff: int64, initial: int64, max: int64, outcomes: seq<Outcome>, k: nat)
    requires Looping(delays, backoff, initial, max, outcomes, k) && k < |outcomes| && outcomes[k] == Nil
    ensures Looping(delays, initial, initial, max, outcomes, k + 1)
  {
  }

  lemma LoopWaits(
    delays: map<nat, int64>, backoff: int64, initial: int64, max: int64, outcomes: seq<Outcome>, k: nat)
    requires Looping(delays, backoff, initial, max, outcomes, k) && k < |outcomes| && outcomes[k] == Failed
    ensures Looping(delays[k := backoff], Next(backoff, max), initial, max, outcomes, k + 1)
  {
    hide Next;
    assert Streak(outcomes, k + 1) == Streak(outcomes, k) + 1;
  }

  lemma LoopEnds(
    delays: map<nat, int64>, backoff: int64, initial: int64, max: int64, outcomes: seq<Outcome>, k: nat)
    requires Looping(delays, backoff, initial, max, outcomes, k)
    requires k == |outcomes| || outcomes[k] == AuthFailed
    ensures Recorded(delays, initial, max, outcomes, Served(outcomes)) && Served(outcomes) == k
  {
    ServedAt(outcomes, k);
  }

  /** Doubles the delay, up to the cap. */
  method Doubled(backoff: int64, max: int64) returns (b: int64)
    ensures b == Next(backoff, max)
  {
    b := Wrap(backoff as int * 2);
    if b > max {
      b := max;
    }
  }

  /** `outcomes` are those of the attempts, until the context is cancelled. `delays` holds, by attempt,
      the wait that followed it. */
  method Run(initialSeconds: int64, maxSeconds: int64, outcomes: seq<Outcome>)
    returns (delays: map<nat, int64>, authFailed: bool)
    ensures Recorded(delays, Wrap(initialSeconds * Second), Wrap(maxSeconds * Second), outcomes, Served(outcomes))
    ensures authFailed <==> Served(outcomes) < |outcomes|
  {
    hide Served, Wrap, Recorded, Looping, Next;
    var backoff := Wrap(initialSeconds * Second);
    var maxBackoff := Wrap(maxSeconds * Second);
    ghost var initial := backoff;
    delays, authFailed := map[], false;
    var k := 0;
    LoopStarts(initial, maxBackoff, outcomes);
    while k < |outcomes|
      invariant k <= |outcomes| && !authFailed
      invariant Looping(delays, backoff, initial, maxBackoff, outcomes, k)
    {
      if outcomes[k] == Nil {
        LoopResets(delays, backoff, initial, maxBackoff, outcomes, k);
        backoff := Wrap(initialSeconds * Second);
        k := k + 1;
        continue;
      }
      if outcomes[k] == AuthFailed {
        LoopEnds(delays, backoff, initial, maxBackoff, outcomes, k);
        return delays, true;
      }
      LoopWaits(delays, backoff, initial, maxBackoff, outcomes, k);
      delays := delays[k := backoff];
      backoff := Doubled(backoff, maxBackoff);
      k := k + 1;
    }
    LoopEnds(delays, backoff, initial, maxBackoff, outcomes, k);
  }

  // ----- the closed form, and when the machine meets it -----

  function Pow2(n: nat): (r: int)
    ensures r >= 1
  {
    if n == 0 then 1 else 2 * Pow2(n - 1)
  }

  /** The intended delay: the initial one, then doubled each time and capped. */
  function Intended(initial: int, max: int, n: nat): int {
    if n == 0 then initial else Min(initial * Pow2(n), max)
  }

  function Min(x: int, y: int): int {
    if x < y then x else y
  }

  lemma DoublingScales(x: int, n: nat)
    requires 0 < x
    ensures x * Pow2(n + 1) == 2 * (x * Pow2(n)) && x * Pow2(n) > 0
  {
  }

  lemma NextIsDouble(w: int64, max: int64)
    requires 0 < w < TwoTo62 && 0 < max
    ensures Next(w, max) == Min(2 * w, max)
  {
  }

  /** Doubling never leaves the 64-bit range. */
  predicate Bounded(initial: int64, max: int64) {
    initial < TwoTo62 && max < TwoTo62
  }

  lemma DoublesExactly(x: int64)
    requires 0 < x
    ensures x < TwoTo62 ==> Wrap(x * 2) == x * 2
    ensures x >= TwoTo62 ==> Wrap(x * 2) < 0
  {
  }

  lemma {:induction false} MeetsIntended(initial: int64, max: int64, n: nat)
    requires 0 < initial && 0 < max && Bounded(initial, max)
    ensures Wait(initial, max, n) == Intended(initial, max, n) && 0 < Wait(initial, max, n) < TwoTo62
  {
    if n > 0 {
      MeetsIntended(initial, max, n - 1);
      NextIsDouble(Wait(initial, max, n - 1), max);
      DoublingScales(initial, n - 1);
      assert initial * Pow2(0) == initial;
    }
  }

  /** Under a large cap the delays at least double until one of them is too large to double. */
  lemma {:induction false} Grows(initial: int64, max: int64, n: nat) returns (k: nat)
    requires 0 < initial && TwoTo62 <= max && n <= 62
    ensures Wait(initial, max, k) >= TwoTo62 || (k == n && Wait(initial, max, n) >= Pow2(n))
  {
    if n == 0 {
      k := 0;
    } else {
      k := Grows(initial, max, n - 1);
      if Wait(initial, max, k) < TwoTo62 {
        DoublesExactly(Wait(initial, max, k));
        k := n;
        PowBelow(n, 62);
        Pow62();
      }
    }
  }

  lemma {:induction false} PowBelow(n: nat, m: nat)
    requires n <= m
    ensures Pow2(n) <= Pow2(m)
  {
    if n < m {
      PowBelow(n, m - 1);
    }
  }

  lemma Pow62()
    ensures Pow2(62) == TwoTo62
  {
    Shift8(54);
    Shift8(46);
    Shift8(38);
    Shift8(30);
    Shift8(22);
    Shift8(14);
    Pow14();
  }

  lemma Pow14()
    ensures Pow2(14) == 0x4000
  {
    Shift8(6);
    assert Pow2(6) == 4 * Pow2(4) == 16 * Pow2(2) == 64;
  }

  lemma Shift8(n: nat)
    ensures Pow2(n + 8) == 256 * Pow2(n)
  {
    assert Pow2(n + 8) == 2 * Pow2(n + 7) == 4 * Pow2(n + 6) == 8 * Pow2(n + 5) == 16 * Pow2(n + 4);
    assert Pow2(n + 4) == 2 * Pow2(n + 3) == 4 * Pow2(n + 2) == 8 * Pow2(n + 1) == 16 * Pow2(n);
  }

  /** Otherwise the delays overflow. */
  lemma Overflows(initial: int64, max: int64) returns (n: nat)
    requires 0 < initial && 0 < max && !Bounded(initial, max)
    ensures Wait(initial, max, n) < 0
  {
    var k := 0;
    if initial < TwoTo62 {
      k := Grows(initial, max, 62);
      Pow62();
    }
    DoublesExactly(Wait(initial, max, k));
    n := k + 1;
  }

  /** For positive settings in nanoseconds the delays are the intended ones for every streak of failures,
      and are all positive, exactly when both settings are below 2^62. */
  lemma IntendedIffBounded(initial: int64, max: int64)
    requires 0 < initial && 0 < max
    ensures Bounded(initial, max) <==> forall n: nat :: Wait(initial, max, n) == Intended(initial, max, n)
    ensures Bounded(initial, max) <==> forall n: nat :: Wait(initial, max, n) > 0
  {
    if Bounded(initial, max) {
      forall n: nat
        ensures Wait(initial, max, n) == Intended(initial, max, n) && Wait(initial, max, n) > 0
      {
        MeetsIntended(initial, max, n);
      }
    } else {
      var n := Overflows(initial, max);
      assert Wait(initial, max, n) != Intended(initial, max, n) by {
        DoublingScales(initial, n);
      }
    }
  }

  /** Below the bound every delay the loop waits is the intended one. */
  lemma RecordedAsIntended(delays: map<nat, int64>, initial: int64, max: int64, outcomes: seq<Outcome>, n: nat)
    requires 0 < initial && 0 < max && Bounded(initial, max) && Recorded(delays, initial, max, outcomes, n)
    ensures forall k :: k in delays ==> 0 < delays[k] == Intended(initial, max, Streak(outcomes, k))
  {
    forall k | k in delays ensures 0 < delays[k] == Intended(initial, max, Streak(outcomes, k)) {
      MeetsIntended(initial, max, Streak(outcomes, k));
    }
  }

  /** With loaded settings of at most 4611686018 seconds (146 years) every delay is the intended one,
      and an initial setting above the cap applies to the first delay only. */
  lemma LoadedSettingsAreBounded(raw: Config, hash: Bytes -> Bytes, n: nat)
    requires raw.gateway.reconnectInitialSeconds <= 4_611_686_018
    requires raw.gateway.reconnectMaxSeconds <= 4_611_686_018
    ensures var g := InForce(raw, hash).gateway;
            var initial, max := Wrap(g.reconnectInitialSeconds * Second), Wrap(g.reconnectMaxSeconds * Second);
            && initial == g.reconnectInitialSeconds * Second && max == g.reconnectMaxSeconds * Second
            && 0 < Wait(initial, max, n) == Intended(initial, max, n)
            && (n > 0 ==> Wait(initial, max, n) <= max)
  {
    var initial := Positive(raw.gateway.reconnectInitialSeconds, 1) * Second;
    var max := Positive(raw.gateway.reconnectMaxSeconds, 30) * Second;
    assert Wrap(initial) == initial && Wrap(max) == max;
    MeetsIntended(initial, max, n);
  }

  // ----- in the seconds of the configuration -----

  /** 146 years: the most seconds whose nanoseconds stay below 2^62. */
  const MaxSeconds: int := 4_611_686_018

  lemma SmallSettings(seconds: int64)
    requires 0 < seconds <= MaxSeconds
    ensures Wrap(seconds * Second) == seconds * Second && 0 < seconds * Second < TwoTo62
  {
  }

  lemma {:induction false} Pow2Add(n: nat)
    ensures Pow2(n + 62) == TwoTo62 * Pow2(n)
  {
    if n == 0 {
      Pow62();
    } else {
      Pow2Add(n - 1);
    }
  }

  lemma Pow124()
    ensures Pow2(124) == TwoTo62 * TwoTo62
  {
    Pow2Add(62);
    Pow62();
  }

  /** After enough failures the intended delay is the cap itself. */
  lemma CapIsReached(initial: int, max: int)
    requires 0 < initial && max < TwoTo62 * TwoTo62
    ensures Intended(initial, max, 124) == max
  {
    Pow124();
    assert initial * Pow2(124) >= Pow2(124);
  }

  /** In the configuration's own terms: for positive settings the delays are the intended ones for every
      streak of failures exactly when neither is above 4611686018 seconds. */
  lemma IntendedIffSmall(s: int64, m: int64)
    requires 0 < s && 0 < m
    ensures s <= MaxSeconds && m <= MaxSeconds <==>
            forall n: nat :: Wait(Wrap(s * Second), Wrap(m * Second), n) == Intended(s * Second, m * Second, n)
  {
    hide Wrap;
    var initial, max := Wrap(s * Second), Wrap(m * Second);
    if s <= MaxSeconds && m <= MaxSeconds {
      SmallSettings(s);
      SmallSettings(m);
      forall n: nat ensures Wait(initial, max, n) == Intended(s * Second, m * Second, n) {
        MeetsIntended(initial, max, n);
      }
    } else if forall n: nat :: Wait(initial, max, n) == Intended(s * Second, m * Second, n) {
      assert Wait(initial, max, 0) == s * Second;
      CapIsReached(s * Second, m * Second);
      assert Wait(initial, max, 124) == m * Second;
      WrapOfInt64(m * Second);
      IntendedIffBounded(initial, max);
      assert false;
    }
  }

  lemma WrapOfInt64(x: int64)
    ensures Wrap(x) == x
  {
  }

  /** Beyond that the delays may go negative, and the loop then no longer waits; or the settings may wrap
      around to small positive ones, and it waits far too short. 584 years become 0.29 seconds. */
  lemma HugeSettingsWrap(n: nat)
    ensures Wait(Wrap(18_446_744_074 * Second), Wrap(18_446_744_074 * Second), n) == 290_448_384
  {
    assert Wrap(18_446_744_074 * Second) == 290_448_384;
    AllAlike(290_448_384, n);
  }

  lemma {:induction false} AllAlike(x: int64, n: nat)
    requires 0 < x < TwoTo62
    ensures Wait(x, x, n) == x
  {
    if n > 0 {
      AllAlike(x, n - 1);
    }
  }
}
