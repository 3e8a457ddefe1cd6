/**
The sliding-window charge shared by device registration, envelope replacement and revocation.
*/
module SlidingWindow {
  import opened Wrappers

  const REGISTRATION_QUOTA: nat := 5
  const REGISTRATION_WINDOW_NS: nat := 86_400_000_000_000
  const REPLACE_QUOTA: nat := 5
  const REPLACE_WINDOW_NS: nat := 86_400_000_000_000
  const REVOKE_QUOTA: nat := 5
  const REVOKE_WINDOW_NS: nat := 86_400_000_000_000

  // ---------- one charge ----------

  predicate Live(now: nat, t: nat, window: nat) {
    SatSub(now, t) < window
  }

  function Retained(attempts: seq<nat>, now: nat, window: nat): (r: seq<nat>)
    ensures |r| <= |attempts|
    ensures forall t :: t in r <==> t in attempts && Live(now, t, window)
  {
    if attempts == [] then []
    else
      var last := attempts[|attempts| - 1];
      Retained(attempts[..|attempts| - 1], now, window) + (if Live(now, last, window) then [last] else [])
  }

  function Oldest(attempts: seq<nat>, otherwise: nat): (m: nat)
    ensures attempts == [] ==> m == otherwise
    ensures attempts != [] ==> m in attempts && forall t :: t in attempts ==> m <= t
  {
    if attempts == [] then otherwise
    else if |attempts| == 1 then attempts[0]
    else
      var rest := Oldest(attempts[..|attempts| - 1], otherwise);
      assert attempts == attempts[..|attempts| - 1] + [attempts[|attempts| - 1]];
      Min(rest, attempts[|attempts| - 1])
  }

  /** The list after a charge, and the wait if it was refused. */
  function Charge(attempts: seq<nat>, now: nat, quota: nat, window: nat): (seq<nat>, Option<nat>) {
    var kept := Retained(attempts, now, window);
    if |kept| >= quota
    then (kept, Some(SatSub(SatAdd(Oldest(kept, now), window, U64_MAX), now)))
    else (kept + [now], None)
  }

  class RegistrationWindow {
    var attempts: seq<nat>

    constructor ()
      ensures attempts == []
    {
      attempts := [];
    }

    method ChargeWindow(now: nat, quota: nat, window: nat) returns (refused: Option<nat>)
      modifies this
      ensures (attempts, refused) == Charge(old(attempts), now, quota, window)
    {
      var kept: seq<nat> := [];
      var i := 0;
      while i < |attempts|
        invariant 0 <= i <= |attempts| && attempts == old(attempts)
        invariant kept == Retained(attempts[..i], now, window)
      {
        assert attempts[..i + 1][..i] == attempts[..i];
        if SatSub(now, attempts[i]) < window {
          kept := kept + [attempts[i]];
        }
        i := i + 1;
      }
      assert attempts[..i] == attempts;
      attempts := kept;
      if |attempts| >= quota {
        var oldest := MinOf(attempts, now);
        return Some(SatSub(SatAdd(oldest, window, U64_MAX), now));
      }
      attempts := attempts + [now];
      refused := None;
    }

    method ChargeRegistration(now: nat) returns (refused: Option<nat>)
      modifies this
      ensures (attempts, refused) == Charge(old(attempts), now, 5, 86_400_000_000_000)
    {
      refused := ChargeWindow(now, REGISTRATION_QUOTA, REGISTRATION_WINDOW_NS);
    }

    method ChargeReplacement(now: nat) returns (refused: Option<nat>)
      modifies this
      ensures (attempts, refused) == Charge(old(attempts), now, 5, 86_400_000_000_000)
    {
      refused := ChargeWindow(now, REPLACE_QUOTA, REPLACE_WINDOW_NS);
    }

    method ChargeRevocation(now: nat) returns (refused: Option<nat>)
      modifies this
      ensures (attempts, refused) == Charge(old(attempts), now, 5, 86_400_000_000_000)
    {
      refused := ChargeWindow(now, REVOKE_QUOTA, REVOKE_WINDOW_NS);
    }
  }

  method MinOf(list: seq<nat>, otherwise: nat) returns (m: nat)
    ensures m == Oldest(list, otherwise)
  {
    if list == [] {
      return otherwise;
    }
    m := list[0];
    var i := 1;
    while i < |list|
      invariant 1 <= i <= |list|
      invariant m == Oldest(list[..i], otherwise)
    {
      assert list[..i + 1][..i] == list[..i];
      m := Min(m, list[i]);
      i := i + 1;
    }
    assert list[..i] == list;
  }

  // ---------- runs of charges ----------

  /** The stored list after calls at the given times, oldest call first, from an empty window. */
  function After(times: seq<nat>, quota: nat, window: nat): seq<nat> {
    if times == [] then []
    else Charge(After(times[..|times| - 1], quota, window), times[|times| - 1], quota, window).0
  }

  /** The call at position `k` was admitted. */
  predicate Admitted(times: seq<nat>, k: nat, quota: nat, window: nat)
    requires k < |times|
  {
    Charge(After(times[..k], quota, window), times[k], quota, window).1.None?
  }

  /** How many of the first `n` calls were admitted at an instant in `[from, from + window)`. */
  function AdmittedWithin(times: seq<nat>, n: nat, quota: nat, window: nat, from: nat): (c: nat)
    requires n <= |times|
  {
    if n == 0 then 0
    else
      AdmittedWithin(times, n - 1, quota, window, from)
      + (if Admitted(times, n - 1, quota, window) && from <= times[n - 1] < from + window then 1 else 0)
  }

  ghost predicate NonDecreasing(times: seq<nat>) {
    forall i, j :: 0 <= i <= j < |times| ==> times[i] <= times[j]
  }

  /** How many entries of a list are at or after an instant. */
  function Since(list: seq<nat>, from: nat): (c: nat)
    ensures c <= |list|
  {
    if list == [] then 0
    else Since(list[..|list| - 1], from) + (if list[|list| - 1] >= from then 1 else 0)
  }

  lemma SinceAppend(list: seq<nat>, t: nat, from: nat)
    ensures Since(list + [t], from) == Since(list, from) + (if t >= from then 1 else 0)
  {
    assert (list + [t])[..|list|] == list;
  }

  /** Retaining drops only entries older than the window, so none at or after `from` if the window still covers it. */
  lemma {:induction false} SinceRetained(list: seq<nat>, now: nat, window: nat, from: nat)
    requires now < from + window && window > 0
    ensures Since(Retained(list, now, window), from) == Since(list, from)
  {
    if list != [] {
      var init, last := list[..|list| - 1], list[|list| - 1];
      SinceRetained(init, now, window, from);
      if Live(now, last, window) {
        SinceAppend(Retained(init, now, window), last, from);
      } else {
        assert Retained(list, now, window) == Retained(init, now, window);
      }
    }
  }

  /** One charge adds itself, if admitted, to what an interval the window still covers has stored. */
  lemma ChargeSince(attempts: seq<nat>, now: nat, quota: nat, window: nat, from: nat)
    requires now < from + window && window > 0
    ensures
      var (after, refused) := Charge(attempts, now, quota, window);
      Since(after, from) == Since(attempts, from) + (if refused.None? && from <= now then 1 else 0)
  {
    SinceRetained(attempts, now, window, from);
    SinceAppend(Retained(attempts, now, window), now, from);
  }

  /**
  While the clock is still inside `[from, from + window)`, the stored list holds every charge
  admitted in that interval; once past it, no later charge counts.
  */
  lemma {:induction false} StoredWithin(times: seq<nat>, n: nat, quota: nat, window: nat, from: nat)
    requires NonDecreasing(times) && n <= |times| && window > 0
    requires n > 0 ==> times[n - 1] < from + window
    ensures AdmittedWithin(times, n, quota, window, from) == Since(After(times[..n], quota, window), from)
  {
    hide Charge, Since;
    if n == 0 {
      EmptySince([], from);
    } else {
      assert times[..n][..n - 1] == times[..n - 1];
      if n > 1 {
        assert times[n - 2] <= times[n - 1];
      }
      StoredWithin(times, n - 1, quota, window, from);
      ChargeSince(After(times[..n - 1], quota, window), times[n - 1], quota, window, from);
    }
  }

  lemma EmptySince(list: seq<nat>, from: nat)
    requires list == []
    ensures Since(list, from) == 0
  {
  }

  lemma {:induction false} StoredBounded(times: seq<nat>, quota: nat, window: nat)
    ensures |After(times, quota, window)| <= quota
  {
    if times != [] {
      StoredBounded(times[..|times| - 1], quota, window);
    }
  }

  /** For every nondecreasing run of calls, no half-open interval of one window admits more than the quota. */
  lemma {:induction false} QuotaHolds(times: seq<nat>, n: nat, quota: nat, window: nat, from: nat)
    requires NonDecreasing(times) && n <= |times|
    ensures AdmittedWithin(times, n, quota, window, from) <= quota
  {
    hide After, Charge, Since, Admitted;
    if n > 0 {
      if window > 0 && times[n - 1] < from + window {
        StoredWithin(times, n, quota, window, from);
        StoredBounded(times[..n], quota, window);
      } else {
        QuotaHolds(times, n - 1, quota, window, from);
      }
    }
  }

  /** Registrations, replacements and revocations are limited to five in any 24 hours each. */
  lemma FivePerDay(times: seq<nat>, n: nat, from: nat)
    requires NonDecreasing(times) && n <= |times|
    ensures AdmittedWithin(times, n, REGISTRATION_QUOTA, REGISTRATION_WINDOW_NS, from) <= 5
    ensures AdmittedWithin(times, n, REPLACE_QUOTA, REPLACE_WINDOW_NS, from) <= 5
    ensures AdmittedWithin(times, n, REVOKE_QUOTA, REVOKE_WINDOW_NS, from) <= 5
    ensures REGISTRATION_WINDOW_NS == REPLACE_WINDOW_NS == REVOKE_WINDOW_NS == 24 * 3600 * 1_000_000_000
  {
    QuotaHolds(times, n, REGISTRATION_QUOTA, REGISTRATION_WINDOW_NS, from);
    QuotaHolds(times, n, REPLACE_QUOTA, REPLACE_WINDOW_NS, from);
    QuotaHolds(times, n, REVOKE_QUOTA, REVOKE_WINDOW_NS, from);
  }

  // ---------- the wait a refusal reports ----------

  /** Every stored time is at or before the last call. */
  lemma {:induction false} StoredPast(times: seq<nat>, quota: nat, window: nat, now: nat)
    requires NonDecreasing(times) && (times != [] ==> times[|times| - 1] <= now)
    ensures forall t :: t in After(times, quota, window) ==> t <= now
  {
    if times != [] {
      var init := times[..|times| - 1];
      if init != [] {
        assert init[|init| - 1] <= times[|times| - 1];
      }
      StoredPast(init, quota, window, now);
    }
  }

  /** The start of the window that ends with, and includes, the instant `now`. */
  function WindowStart(now: nat, window: nat): nat {
    SatSub(now + 1, window)
  }

  lemma {:induction false} LiveCount(list: seq<nat>, now: nat, window: nat)
    requires window > 0 && forall t :: t in list ==> t <= now
    ensures |Retained(list, now, window)| == Since(list, WindowStart(now, window))
  {
    if list != [] {
      var init, last := list[..|list| - 1], list[|list| - 1];
      forall t | t in init ensures t in list {
      }
      assert last in list;
      LiveCount(init, now, window);
    }
  }

  /** A call is admitted exactly when fewer than the quota were admitted in the window that ends with it. */
  lemma AdmittedWhileRoom(times: seq<nat>, k: nat, quota: nat, window: nat)
    requires NonDecreasing(times) && k < |times|
    ensures
      Admitted(times, k, quota, window)
      <==> AdmittedWithin(times, k, quota, window, WindowStart(times[k], window)) < quota
  {
    if k > 0 {
      assert times[k - 1] <= times[k];
    }
    StoredPast(times[..k], quota, window, times[k]);
    if window == 0 {
      EmptyWindow(times, k, quota, WindowStart(times[k], 0));
      assert Retained(After(times[..k], quota, 0), times[k], 0) == [] by {
        NoneLive(After(times[..k], quota, 0), times[k]);
      }
    } else {
      LiveCount(After(times[..k], quota, window), times[k], window);
      StoredWithin(times, k, quota, window, WindowStart(times[k], window));
    }
  }

  lemma {:induction false} NoneLive(list: seq<nat>, now: nat)
    ensures Retained(list, now, 0) == []
  {
    if list != [] {
      NoneLive(list[..|list| - 1], now);
    }
  }

  lemma {:induction false} EmptyWindow(times: seq<nat>, n: nat, quota: nat, from: nat)
    requires n <= |times|
    ensures AdmittedWithin(times, n, quota, 0, from) == 0
  {
    if n > 0 {
      EmptyWindow(times, n - 1, quota, from);
    }
  }

  /** A retry is judged on the entries that survive until then. */
  lemma {:induction false} RetainedTwice(list: seq<nat>, now: nat, later: nat, window: nat)
    requires now <= later && forall t :: t in list ==> t <= now
    ensures Retained(Retained(list, now, window), later, window) == Retained(list, later, window)
  {
    if list != [] {
      var init, last := list[..|list| - 1], list[|list| - 1];
      forall t | t in init ensures t in list {
      }
      RetainedTwice(init, now, later, window);
      if Live(now, last, window) {
        RetainedAppend(Retained(init, now, window), last, later, window);
      } else {
        assert last in list && !Live(later, last, window);
        assert Retained(list, now, window) == Retained(init, now, window);
      }
    }
  }

  lemma RetainedAppend(list: seq<nat>, t: nat, now: nat, window: nat)
    ensures Retained(list + [t], now, window) == Retained(list, now, window) + (if Live(now, t, window) then [t] else [])
  {
    assert (list + [t])[..|list|] == list;
  }

  lemma {:induction false} AllRetained(list: seq<nat>, later: nat, window: nat)
    requires forall t :: t in list ==> Live(later, t, window)
    ensures Retained(list, later, window) == list
  {
    if list != [] {
      assert list == list[..|list| - 1] + [list[|list| - 1]];
      AllRetained(list[..|list| - 1], later, window);
    }
  }

  lemma {:induction false} SomeDropped(list: seq<nat>, later: nat, window: nat, gone: nat)
    requires gone in list && !Live(later, gone, window)
    ensures |Retained(list, later, window)| < |list|
  {
    if list[|list| - 1] != gone {
      SomeDropped(list[..|list| - 1], later, window, gone);
    }
  }

  /** Refused at this instant, as a later call in the same state would see it. */
  predicate RefusedAt(attempts: seq<nat>, at: nat, quota: nat, window: nat) {
    Charge(attempts, at, quota, window).1.Some?
  }

  /** The oldest charge a call at `now` still counts; `now` itself if there is none. */
  function OldestLive(attempts: seq<nat>, now: nat, window: nat): nat {
    Oldest(Retained(attempts, now, window), now)
  }

  /**
  The wait is exact in every reachable state: a retry on the stored list is refused, and leaves it
  as it was, at every instant before `now + wait`, and admitted at `now + wait` if and only if the
  quota is positive and the oldest charge still live at the call expires within the clock's 64 bits.
  */
  lemma WaitIsExact(times: seq<nat>, now: nat, quota: nat, window: nat, later: nat)
    requires NonDecreasing(times + [now]) && now <= later
    requires now <= U64_MAX && window <= U64_MAX
    requires RefusedAt(After(times, quota, window), now, quota, window)
    ensures
      var (kept, refused) := Charge(After(times, quota, window), now, quota, window);
      && (later < now + refused.value ==>
            RefusedAt(kept, later, quota, window) && Charge(kept, later, quota, window).0 == kept)
      && (later == now + refused.value ==>
            (!RefusedAt(kept, later, quota, window)
             <==> quota > 0 && OldestLive(After(times, quota, window), now, window) + window <= U64_MAX))
  {
    hide After, Charge;
    var attempts := After(times, quota, window);
    if times != [] {
      assert (times + [now])[|times| - 1] <= (times + [now])[|times|];
    }
    assert NonDecreasing(times) by {
      assert forall i :: 0 <= i < |times| ==> times[i] == (times + [now])[i];
    }
    StoredPast(times, quota, window, now);
    StoredBounded(times, quota, window);
    RefusalKeepsLive(attempts, now, quota, window);
    WaitOnFullList(Retained(attempts, now, window), now, quota, window, later);
  }

  lemma RefusalKeepsLive(attempts: seq<nat>, now: nat, quota: nat, window: nat)
    requires RefusedAt(attempts, now, quota, window)
    ensures
      var kept := Retained(attempts, now, window);
      && |kept| >= quota
      && Charge(attempts, now, quota, window)
         == (kept, Some(SatSub(SatAdd(OldestLive(attempts, now, window), window, U64_MAX), now)))
  {
  }

  /** The wait computed from a full list of live charges, judged on that list. */
  lemma WaitOnFullList(kept: seq<nat>, now: nat, quota: nat, window: nat, later: nat)
    requires |kept| == quota && (forall t :: t in kept ==> t <= now && Live(now, t, window))
    requires now <= later && now <= U64_MAX && window <= U64_MAX
    ensures
      var wait := SatSub(SatAdd(Oldest(kept, now), window, U64_MAX), now);
      && (later < now + wait ==> RefusedAt(kept, later, quota, window) && Charge(kept, later, quota, window).0 == kept)
      && (later == now + wait ==>
            (!RefusedAt(kept, later, quota, window) <==> quota > 0 && Oldest(kept, now) + window <= U64_MAX))
  {
    hide Oldest, Retained;
    var oldest := Oldest(kept, now);
    if kept == [] {
      AllRetained(kept, later, window);
    } else {
      assert oldest in kept && Live(now, oldest, window);
      if later < oldest + window {
        forall t | t in kept ensures Live(later, t, window) {
          assert oldest <= t;
        }
        AllRetained(kept, later, window);
      } else {
        SomeDropped(kept, later, window, oldest);
      }
    }
  }

  function Repeat(t: nat, n: nat): (r: seq<nat>)
    ensures |r| == n && forall i :: 0 <= i < n ==> r[i] == t
  {
    if n == 0 then [] else Repeat(t, n - 1) + [t]
  }

  /** Calls at one instant are all stored until the quota is used up. */
  lemma {:induction false} AllAtOnce(t: nat, n: nat, quota: nat, window: nat)
    requires n <= quota && window > 0
    ensures After(Repeat(t, n), quota, window) == Repeat(t, n)
  {
    if n > 0 {
      assert Repeat(t, n)[..n - 1] == Repeat(t, n - 1);
      AllAtOnce(t, n - 1, quota, window);
      AllRetained(Repeat(t, n - 1), t, window);
    }
  }

  /**
  The waits that are too short: once the quota is used up at an instant whose window reaches past
  the end of the clock, the next call is told to wait until the clock's last instant, and is refused there.
  */
  lemma SaturatedWaitIsShort(t: nat, quota: nat, window: nat)
    requires quota > 0 && t <= U64_MAX < t + window
    ensures
      var list := After(Repeat(t, quota), quota, window);
      Charge(list, t, quota, window) == (list, Some(U64_MAX - t)) && RefusedAt(list, U64_MAX, quota, window)
  {
    AllAtOnce(t, quota, quota, window);
    AllRetained(Repeat(t, quota), t, window);
    AllRetained(Repeat(t, quota), U64_MAX, window);
  }

  /** Five revocations and a sixth just before the end of the clock: told to wait one nanosecond, and refused then. */
  lemma LateRevocationRefusedTwice()
    ensures
      var t := U64_MAX - 1;
      var list := After([t, t, t, t, t], REVOKE_QUOTA, REVOKE_WINDOW_NS);
      && list == [t, t, t, t, t]
      && Charge(list, t, REVOKE_QUOTA, REVOKE_WINDOW_NS) == (list, Some(1))
      && RefusedAt(list, t + 1, REVOKE_QUOTA, REVOKE_WINDOW_NS)
  {
    hide After, Charge;
    var t := U64_MAX - 1;
    assert Repeat(t, 5) == [t, t, t, t, t];
    AllAtOnce(t, 5, REVOKE_QUOTA, REVOKE_WINDOW_NS);
    SaturatedWaitIsShort(t, REVOKE_QUOTA, REVOKE_WINDOW_NS);
  }
}
