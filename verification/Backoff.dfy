/** The retry timeout of a connection to a router (apps/silcd/server.c,
    server.h): doubled each time, clamped, and then lengthened by zero or one
    second at random, in 32-bit unsigned arithmetic. */
module Backoff {

  const WORD := 0x1_0000_0000

  /** Random extensions, one for each retry: values modulo
      SILC_SERVER_RETRY_RANDOMIZER. */
  predicate Random(rs: seq<nat>) {
    forall i :: 0 <= i < |rs| ==> rs[i] < 2
  }

  function Min(a: nat, b: nat): nat {
    if a <= b then a else b
  }

  function Max(a: nat, b: nat): nat {
    if a >= b then a else b
  }

  /** The timeout of retry `k` on unbounded numbers. */
  function Timeout(first: nat, max: nat, rs: seq<nat>, k: nat): nat
    requires k < |rs|
  {
    if k == 0 then first + rs[0] else Min(2 * Timeout(first, max, rs, k - 1), max) + rs[k]
  }

  function Pow2(k: nat): (p: nat)
    ensures p >= 1
  {
    if k == 0 then 1 else 2 * Pow2(k - 1)
  }

  // -------------------------------------------------------------- closed form

  /** Between the clamped power of two and that with every extension accumulated. */
  predicate Bounded(first: nat, max: nat, k: nat, t: nat) {
    Min(Pow2(k) * first, max) <= t <= Min(Pow2(k) * first + 2 * Pow2(k) - 1, max + 1)
  }

  lemma Doubling(k: nat, first: nat)
    requires k >= 1
    ensures Pow2(k) * first == 2 * (Pow2(k - 1) * first)
  {
  }

  /** So the timeout lies from the first doubling on. */
  lemma {:induction false} ClosedForm(first: nat, max: nat, rs: seq<nat>, k: nat)
    requires Random(rs) && 1 <= k < |rs|
    ensures Bounded(first, max, k, Timeout(first, max, rs, k))
    ensures var t, p := Timeout(first, max, rs, k), Pow2(k);
      && t <= max + 1 && t <= p * first + 2 * p - 1
      && (t >= max || t >= p * first)
  {
    Doubling(k, first);
    if k > 1 { ClosedForm(first, max, rs, k - 1); }
  }

  /** Once the power of two has reached the maximum it stays there, to a second. */
  lemma Settles(first: nat, max: nat, rs: seq<nat>, k: nat)
    requires Random(rs) && 1 <= k < |rs| && Pow2(k) * first >= max
    ensures Timeout(first, max, rs, k) in {max, max + 1}
  {
    ClosedForm(first, max, rs, k);
  }

  /** At any time, and at the first retry, which is not clamped. */
  lemma {:induction false} NeverAbove(first: nat, max: nat, rs: seq<nat>, k: nat)
    requires Random(rs) && k < |rs|
    ensures Timeout(first, max, rs, k) <= Max(first, max) + 1
  {
  }

  // -------------------------------------------------------------- wrap-around

  /** One retry in 32-bit arithmetic. */
  function Stepped(count: nat, timeout: nat, first: nat, max: nat, r: nat): (t: nat)
    ensures t < WORD
  {
    ((if count >= 1 then Min(timeout * 2 % WORD, max) else first) + r) % WORD
  }

  /** The same, over a sequence of retries. */
  function Timeout32(first: nat, max: nat, rs: seq<nat>, k: nat): (t: nat)
    requires k < |rs|
    ensures t < WORD
  {
    Stepped(k, if k == 0 then 0 else Timeout32(first, max, rs, k - 1), first, max, rs[k])
  }

  /** No intermediate value leaves the word in retries 0 to `k`. */
  predicate Fits(first: nat, max: nat, rs: seq<nat>, k: nat)
    requires k < |rs|
  {
    if k == 0 then first + rs[0] < WORD
    else
      && Fits(first, max, rs, k - 1)
      && 2 * Timeout(first, max, rs, k - 1) < WORD && Timeout(first, max, rs, k) < WORD
  }

  lemma SmallMod(n: nat)
    requires n < WORD
    ensures n % WORD == n
  {
  }

  /** Where nothing wraps the machine computes the unbounded timeout. */
  lemma {:induction false} FitsMeansEqual(first: nat, max: nat, rs: seq<nat>, k: nat)
    requires k < |rs| && Fits(first, max, rs, k)
    ensures Timeout32(first, max, rs, k) == Timeout(first, max, rs, k)
  {
    if k == 0 {
      SmallMod(first + rs[0]);
    } else {
      FitsMeansEqual(first, max, rs, k - 1);
      var t := Timeout(first, max, rs, k - 1);
      SmallMod(t * 2);
      SmallMod(Min(t * 2, max) + rs[k]);
    }
  }

  lemma {:induction false} SmallEnoughFits(first: nat, max: nat, rs: seq<nat>, k: nat)
    requires Random(rs) && k < |rs| && 2 * (Max(first, max) + 1) < WORD
    ensures Fits(first, max, rs, k)
  {
    NeverAbove(first, max, rs, k);
    if k > 0 {
      SmallEnoughFits(first, max, rs, k - 1);
      NeverAbove(first, max, rs, k - 1);
    }
  }

  function Ones(n: nat): seq<nat> {
    seq(n, _ => 1)
  }

  /** With every extension drawn as one, the timeout climbs past the maximum. */
  lemma {:induction false} Climbs(first: nat, max: nat, rs: seq<nat>, k: nat)
    requires k < |rs| && forall i :: 0 <= i < |rs| ==> rs[i] == 1
    ensures Timeout(first, max, rs, k) >= Min(k, max) + 1
  {
    if k > 0 { Climbs(first, max, rs, k - 1); }
  }

  /** For any draws and any number of retries. */
  ghost predicate NeverWraps(first: nat, max: nat) {
    forall rs: seq<nat>, k: nat :: Random(rs) && k < |rs| ==> Fits(first, max, rs, k)
  }

  /** The greatest timeout is reached, so the doubling after it decides. */
  lemma Reached(first: nat, max: nat) returns (rs: seq<nat>, k: nat)
    ensures Random(rs) && 1 <= k < |rs| && Timeout(first, max, rs, k - 1) >= Max(first, max) + 1
  {
    rs := Ones(max + 2);
    k := (if first >= max then 0 else max) + 1;
    assert forall i :: 0 <= i < |rs| ==> rs[i] == 1;
    Climbs(first, max, rs, k - 1);
  }

  /** Nothing ever wraps exactly when twice the greatest timeout still fits into
      the word. */
  lemma NeverWrapsIff(first: nat, max: nat)
    ensures NeverWraps(first, max) <==> 2 * (Max(first, max) + 1) < WORD
  {
    if 2 * (Max(first, max) + 1) < WORD {
      forall rs: seq<nat>, k: nat | Random(rs) && k < |rs| ensures Fits(first, max, rs, k) {
        SmallEnoughFits(first, max, rs, k);
      }
    } else {
      var rs, k := Reached(first, max);
      assert !Fits(first, max, rs, k);
    }
  }

  // ---------------------------------------------------------- the connection

  lemma {:induction false} Timeout32Grows(first: nat, max: nat, rs: seq<nat>, r: nat, k: nat)
    requires k < |rs|
    ensures Timeout32(first, max, rs + [r], k) == Timeout32(first, max, rs, k)
  {
    if k > 0 { Timeout32Grows(first, max, rs, r, k - 1); }
  }

  lemma Timeout32Next(first: nat, max: nat, rs: seq<nat>, r: nat)
    ensures Timeout32(first, max, rs + [r], |rs|)
            == Stepped(|rs|, if |rs| == 0 then 0 else Timeout32(first, max, rs, |rs| - 1), first, max, r)
  {
    if |rs| > 0 { Timeout32Grows(first, max, rs, r, |rs| - 1); }
  }

  lemma NotAbove(first: nat, max: nat, rs: seq<nat>, k: nat)
    requires Random(rs) && k < |rs| && 2 * (Max(first, max) + 1) < WORD
    ensures Timeout32(first, max, rs, k) <= Max(first, max) + 1
  {
    SmallEnoughFits(first, max, rs, k);
    FitsMeansEqual(first, max, rs, k);
    NeverAbove(first, max, rs, k);
    hide *;
  }

  lemma SteppedFits(count: nat, timeout: nat, first: nat, max: nat, r: nat)
    requires r < 2 && 2 * (Max(first, max) + 1) < WORD && timeout <= Max(first, max) + 1
    ensures Stepped(count, timeout, first, max, r)
            == r + if count == 0 then first else if 2 * timeout <= max then 2 * timeout else max
  {
    SmallMod(first + r);
    SmallMod(timeout * 2);
    SmallMod(Min(timeout * 2, max) + r);
  }

  /** One retry more, where twice the greatest timeout fits. */
  lemma MachineNext(first: nat, max: nat, rs: seq<nat>, r: nat)
    requires Random(rs) && r < 2 && 2 * (Max(first, max) + 1) < WORD
    ensures Timeout32(first, max, rs + [r], |rs|)
            == r + if rs == [] then first
                   else if 2 * Timeout32(first, max, rs, |rs| - 1) <= max then 2 * Timeout32(first, max, rs, |rs| - 1)
                   else max
  {
    Timeout32Next(first, max, rs, r);
    var t := if rs == [] then 0 else Timeout32(first, max, rs, |rs| - 1);
    if rs != [] { NotAbove(first, max, rs, |rs| - 1); }
    SteppedFits(|rs|, t, first, max, r);
    hide Timeout32, Stepped, Random;
  }

  /** The machine's timeout of retry `k` within the bounds of `ClosedForm`. */
  lemma MachineBounds(first: nat, max: nat, rs: seq<nat>, k: nat)
    requires Random(rs) && 1 <= k < |rs| && 2 * (Max(first, max) + 1) < WORD
    ensures Bounded(first, max, k, Timeout32(first, max, rs, k))
  {
    SmallEnoughFits(first, max, rs, k);
    FitsMeansEqual(first, max, rs, k);
    ClosedForm(first, max, rs, k);
  }

  /** The retry fields of one connection. */
  class Retry {
    const first: nat
    const max: nat
    var count: nat
    var timeout: nat
    ghost var draws: seq<nat>

    ghost predicate Valid()
      reads this
    {
      && Random(draws) && |draws| == count
      && timeout == if count == 0 then 0 else Timeout32(first, max, draws, count - 1)
    }

    constructor (first: nat, max: nat)
      ensures Valid() && count == 0 && draws == [] && this.first == first && this.max == max
    {
      this.first, this.max, count, timeout, draws := first, max, 0, 0, [];
    }

    /** silc_server_connect_to_router_retry on the fields. */
    method Advance(r: nat)
      requires timeout < WORD && first < WORD && max < WORD && r < 2
      modifies this`count, this`timeout
      ensures count == old(count) + 1 && timeout == Stepped(old(count), old(timeout), first, max, r)
    {
      if count >= 1 {
        timeout := timeout * 2 % WORD;
        if timeout > max {
          timeout := max;
        }
      } else {
        timeout := first;
      }
      count := count + 1;
      timeout := (timeout + r) % WORD;
    }

    /** Where twice the greatest timeout fits into the word, every timeout from the
        first doubling on keeps to the closed form, at most a second above the
        maximum. */
    method Next(r: nat)
      requires Valid() && first < WORD && max < WORD && r < 2
      modifies this
      ensures Valid() && count == old(count) + 1 && draws == old(draws) + [r]
      ensures 2 * (Max(first, max) + 1) < WORD && count >= 2 ==> Bounded(first, max, count - 1, timeout)
      ensures 2 * (if first >= max then first + 1 else max + 1) < 0x1_0000_0000 ==>
                timeout == r + if old(count) == 0 then first
                               else if 2 * old(timeout) <= max then 2 * old(timeout) else max
    {
      Timeout32Next(first, max, draws, r);
      if 2 * (Max(first, max) + 1) < WORD { MachineNext(first, max, draws, r); }
      hide Stepped, Bounded, Timeout32;
      Advance(r);
      draws := draws + [r];
      if 2 * (Max(first, max) + 1) < WORD && count >= 2 { MachineBounds(first, max, draws, count - 1); }
    }
  }
}
