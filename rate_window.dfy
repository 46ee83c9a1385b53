/**
 * The sliding one-minute window behind the requests-per-minute limit of the
 * OpenAI backend (`wait_for_rate_limit` in src/openai/mod.rs), on values.
 * Times are readings of a monotonic clock, in milliseconds.
 */
module RateWindow {
  import opened Basics

  /** The window length: sixty seconds. */
  const Window: nat := 60_000

  /** `now.duration_since(t)`: how long ago `t` was, and zero for a `t` after `now`. */
  function Elapsed(now: nat, t: nat): (e: nat)
    ensures e <= now
    ensures t <= now ==> t + e == now
    ensures now < t ==> e == 0
  {
    if t <= now then now - t else 0
  }

  /** A timestamp still inside the window ending at `now`. */
  predicate InWindow(now: nat, t: nat) {
    Elapsed(now, t) < Window
  }

  /** `retain`: the timestamps still inside the window, in their order. */
  function Retain(times: seq<nat>, now: nat): (kept: seq<nat>)
    ensures |kept| <= |times|
    ensures forall i :: 0 <= i < |kept| ==> InWindow(now, kept[i])
  {
    if times == [] then []
    else if InWindow(now, times[0]) then [times[0]] + Retain(times[1..], now)
    else Retain(times[1..], now)
  }

  /** `retain` keeps exactly the timestamps inside the window. */
  lemma {:induction false} RetainMembers(times: seq<nat>, now: nat)
    ensures forall t :: t in Retain(times, now) <==> t in times && InWindow(now, t)
  {
    if times != [] {
      RetainMembers(times[1..], now);
      assert forall t :: t in times <==> t == times[0] || t in times[1..];
    }
  }

  predicate Sorted(s: seq<nat>) {
    forall i, j :: 0 <= i < j < |s| ==> s[i] <= s[j]
  }

  predicate NotAfter(s: seq<nat>, now: nat) {
    forall i :: 0 <= i < |s| ==> s[i] <= now
  }

  /** Recording `x` between `now` and `later` leaves nothing after `later`. */
  lemma RecordNotAfter(history: seq<nat>, x: nat, now: nat, later: nat)
    requires NotAfter(history, now) && now <= x <= later
    ensures NotAfter(history + [x], later)
  {
  }

  /**
   * On timestamps appended in clock order, `retain` drops a prefix: what it
   * keeps is a suffix, and everything before that suffix is a minute old.
   */
  lemma {:induction false} RetainDropsPrefix(times: seq<nat>, now: nat)
    requires Sorted(times) && NotAfter(times, now)
    ensures var kept := Retain(times, now);
            kept == times[|times| - |kept|..]
            && forall j :: 0 <= j < |times| - |kept| ==> times[j] + Window <= now
  {
    if times != [] {
      var rest := times[1..];
      assert Sorted(rest) && NotAfter(rest, now);
      RetainDropsPrefix(rest, now);
      if InWindow(now, times[0]) {
        // every later timestamp is at least as recent, so nothing is dropped
        RetainAllInWindow(times, now);
      }
    }
  }

  /** When every timestamp is inside the window, `retain` keeps them all. */
  lemma {:induction false} RetainAllInWindow(times: seq<nat>, now: nat)
    requires Sorted(times) && NotAfter(times, now)
    requires times != [] ==> InWindow(now, times[0])
    ensures Retain(times, now) == times
  {
    if times != [] {
      var rest := times[1..];
      assert rest != [] ==> rest[0] == times[1] && times[0] <= times[1];
      RetainAllInWindow(rest, now);
      assert [times[0]] + rest == times;
    }
  }

  /** Retaining twice against the same reading removes nothing the second time. */
  lemma {:induction false} RetainIdempotent(times: seq<nat>, now: nat)
    ensures Retain(Retain(times, now), now) == Retain(times, now)
  {
    if times != [] {
      RetainIdempotent(times[1..], now);
      if InWindow(now, times[0]) {
        var rest := Retain(times[1..], now);
        assert ([times[0]] + rest)[1..] == rest;
      }
    }
  }

  /**
   * The sliding-window guarantee over a history of admissions in clock order:
   * any `rpm + 1` consecutive admissions span at least a whole window, so no
   * minute-long window holds more than `rpm` of them.
   */
  ghost predicate SpacedOut(history: seq<nat>, rpm: nat) {
    forall i :: rpm <= i < |history| ==> history[i - rpm] + Window <= history[i]
  }

  /**
   * The bookkeeping of one key: `history` is every admission ever recorded,
   * `times` the list the tracker still holds, which is what `retain` has not
   * yet dropped; the dropped ones are a minute older than the last admission.
   */
  ghost predicate Consistent(history: seq<nat>, times: seq<nat>, rpm: nat) {
    && |times| <= |history|
    && times == history[|history| - |times|..]
    && Sorted(history)
    && (forall j :: 0 <= j < |history| - |times| ==> history[j] + Window <= history[|history| - 1])
    && SpacedOut(history, rpm)
  }

  /** The outcome of one `wait_for_rate_limit`: the new list, the sleep requested, the time recorded. */
  datatype Admission = Admission(times: seq<nat>, wait: nat, recorded: Option<nat>)

  /**
   * One pass of `wait_for_rate_limit` with tracking on. `now` is the clock read
   * under the lock; after a sleep of `wait` the clock reads `now + wait + lateness`.
   * After the sleep the list is filtered again against the old `now`.
   */
  function Admit(times: seq<nat>, now: nat, rpm: U32, lateness: nat): (a: Admission)
    ensures a.recorded.Some? <==> rpm > 0
    ensures a.recorded.Some? ==>
              now <= a.recorded.value && |a.times| > 0 && a.times[|a.times| - 1] == a.recorded.value
    ensures a.wait <= Window && (rpm == 0 ==> a.wait == 0)
    ensures a.wait > 0 ==> a.recorded == Some(now + a.wait + lateness)
  {
    var kept := Retain(times, now);
    if rpm > 0 && |kept| >= rpm && |kept| > 0 && Elapsed(now, kept[0]) < Window then
      var wait := Window - Elapsed(now, kept[0]);
      var woke := now + wait + lateness;
      Admission(Retain(kept, now) + [woke], wait, Some(woke))
    else if rpm > 0 then
      Admission(kept + [now], 0, Some(now))
    else
      Admission(kept, 0, None)
  }

  /** Whatever `Retain` keeps is inside the window, so the `elapsed < 60s` test always passes. */
  lemma OldestIsInWindow(times: seq<nat>, now: nat)
    requires Retain(times, now) != []
    ensures InWindow(now, Retain(times, now)[0])
  {
    RetainMembers(times, now);
    assert Retain(times, now)[0] in Retain(times, now);
  }

  /** The sleep lies in (0, 60 s] and ends when the oldest kept request turns a minute old. */
  lemma WaitBounds(times: seq<nat>, now: nat, rpm: U32, lateness: nat)
    requires NotAfter(times, now)
    ensures var a := Admit(times, now, rpm, lateness);
            0 <= a.wait <= Window
            && (a.wait > 0 <==> rpm > 0 && |Retain(times, now)| >= rpm)
            && (a.wait > 0 ==> Retain(times, now)[0] + Window == now + a.wait)
  {
    var kept := Retain(times, now);
    if kept != [] {
      OldestIsInWindow(times, now);
      RetainMembers(times, now);
      assert kept[0] in times;
    }
  }

  /**
   * The three outcomes: no tracking records nothing; room in the window
   * records `now` with no wait and grows the list by exactly one; a full
   * window waits, the second filter removes nothing, and the time after the
   * wait is recorded, so the list holds one more entry than the full window.
   */
  lemma AdmitOutcome(times: seq<nat>, now: nat, rpm: U32, lateness: nat)
    ensures var kept := Retain(times, now);
            var a := Admit(times, now, rpm, lateness);
            && (rpm == 0 ==> a == Admission(kept, 0, None))
            && (rpm > 0 && |kept| < rpm ==> a == Admission(kept + [now], 0, Some(now)))
            && (rpm > 0 && |kept| >= rpm ==>
                  a == Admission(kept + [now + a.wait + lateness], a.wait, Some(now + a.wait + lateness))
                  && |a.times| == |kept| + 1 > rpm)
  {
    var kept := Retain(times, now);
    if rpm > 0 && |kept| >= rpm {
      OldestIsInWindow(times, now);
      RetainIdempotent(times, now);
    }
  }

  /**
   * The rate guarantee itself: two admissions less than a minute apart are
   * fewer than `rpm` places apart, so any minute sees at most `rpm` of them.
   */
  lemma AtMostRpmPerMinute(history: seq<nat>, rpm: nat, i: nat, j: nat)
    requires Sorted(history) && SpacedOut(history, rpm)
    requires i <= j < |history| && history[j] < history[i] + Window
    ensures j - i < rpm
  {
    // were they `rpm` or more places apart, the admission `rpm` before `j` would lie between them
    SpacingAt(history, rpm, j);
    OrderAt(history, i, j - rpm);
  }

  lemma OrderAt(s: seq<nat>, i: int, j: int)
    ensures Sorted(s) && 0 <= i <= j < |s| ==> s[i] <= s[j]
  {
  }

  /** In a consistent tracker the window at `now` never holds more than `rpm` requests. */
  lemma WindowNeverOverfull(history: seq<nat>, times: seq<nat>, rpm: nat, now: nat)
    requires rpm > 0 && Consistent(history, times, rpm) && NotAfter(history, now)
    ensures |Retain(times, now)| <= rpm
  {
    var kept := Retain(times, now);
    HeldListInOrder(history, times, now);
    RetainDropsPrefix(times, now);
    RetainMembers(times, now);
    SpacedSuffixBounded(history, kept, rpm, now);
  }

  /** A suffix of a spaced-out history that lies inside one window has at most `rpm` entries. */
  lemma SpacedSuffixBounded(history: seq<nat>, kept: seq<nat>, rpm: nat, now: nat)
    requires rpm > 0 && SpacedOut(history, rpm) && NotAfter(history, now)
    requires |kept| <= |history| && kept == history[|history| - |kept|..]
    requires forall t :: t in kept ==> InWindow(now, t)
    ensures |kept| <= rpm
  {
    // were there more, the newest entry and the one `rpm` before it would both be inside the window
    WitnessInWindow(kept, now, |kept| - 1 - rpm);
    SpacingAt(history, rpm, |history| - 1);
  }

  lemma SpacingAt(history: seq<nat>, rpm: nat, i: int)
    ensures SpacedOut(history, rpm) && rpm <= i < |history| ==> history[i - rpm] + Window <= history[i]
  {
  }

  lemma WitnessInWindow(kept: seq<nat>, now: nat, k: int)
    ensures 0 <= k < |kept| && (forall t :: t in kept ==> InWindow(now, t)) ==> InWindow(now, kept[k])
  {
  }

  /** The held list, being a suffix of the history, is in clock order too. */
  lemma HeldListInOrder(history: seq<nat>, times: seq<nat>, now: nat)
    requires |times| <= |history| && times == history[|history| - |times|..]
    requires Sorted(history) && NotAfter(history, now)
    ensures Sorted(times) && NotAfter(times, now)
  {
    forall i | 0 <= i < |times| ensures times[i] == history[|history| - |times| + i] { }
  }

  /** Appending a time at least `Window` after the admission `rpm` places back keeps the spacing. */
  lemma AppendSpacedOut(history: seq<nat>, x: nat, rpm: nat)
    requires rpm > 0 && SpacedOut(history, rpm)
    requires |history| >= rpm ==> history[|history| - rpm] + Window <= x
    ensures SpacedOut(history + [x], rpm)
  {
    var h := history + [x];
    forall i | rpm <= i < |h| ensures h[i - rpm] + Window <= h[i] {
      if i < |history| {
        assert h[i - rpm] == history[i - rpm] && h[i] == history[i];
      } else {
        assert h[i - rpm] == history[|history| - rpm] && h[i] == x;
      }
    }
  }

  lemma AppendSorted(history: seq<nat>, x: nat)
    requires Sorted(history) && NotAfter(history, x)
    ensures Sorted(history + [x])
  {
  }

  /**
   * What `retain` keeps of a consistent tracker's list is a suffix of the
   * history, and everything before it is a minute older than `now`.
   */
  lemma KeptIsRecentSuffix(history: seq<nat>, times: seq<nat>, rpm: nat, now: nat)
    requires Consistent(history, times, rpm) && NotAfter(history, now)
    ensures var kept := Retain(times, now);
            |kept| <= |history| && kept == history[|history| - |kept|..]
            && forall j :: 0 <= j < |history| - |kept| ==> history[j] + Window <= now
  {
    var n := |history|;
    var kept := Retain(times, now);
    HeldListInOrder(history, times, now);
    RetainDropsPrefix(times, now);
    forall j | 0 <= j < n - |kept| ensures history[j] + Window <= now {
      if j >= n - |times| {
        assert history[j] == times[j - (n - |times|)];
      } else {
        assert history[n - 1] <= now;
      }
    }
  }

  /**
   * Recording `x` after a suffix `kept` of at most `rpm` recent entries keeps
   * the bookkeeping consistent, provided that, when the window was full,
   * `x` comes a whole window after the oldest kept entry.
   */
  lemma RecordKeepsConsistent(history: seq<nat>, kept: seq<nat>, x: nat, rpm: nat, now: nat)
    requires rpm > 0 && Sorted(history) && SpacedOut(history, rpm) && NotAfter(history, now) && now <= x
    requires |kept| <= rpm && |kept| <= |history| && kept == history[|history| - |kept|..]
    requires forall j :: 0 <= j < |history| - |kept| ==> history[j] + Window <= now
    requires |kept| == rpm ==> kept[0] + Window <= x
    ensures Consistent(history + [x], kept + [x], rpm)
  {
    var n := |history|;
    var h := history + [x];
    assert kept + [x] == h[|h| - |kept + [x]|..];
    AppendSorted(history, x);
    if n >= rpm {
      if |kept| < rpm {
        assert history[n - rpm] + Window <= now;
      } else {
        assert kept[0] == history[n - rpm];
      }
    }
    AppendSpacedOut(history, x, rpm);
  }

  /**
   * One admission keeps the bookkeeping consistent: appending the recorded
   * time to the history still leaves every `rpm + 1` consecutive admissions
   * a whole window apart, although the held list can reach `rpm + 1` entries.
   */
  lemma AdmitKeepsConsistent(history: seq<nat>, times: seq<nat>, rpm: U32, now: nat, lateness: nat)
    requires rpm > 0 && Consistent(history, times, rpm) && NotAfter(history, now)
    ensures var a := Admit(times, now, rpm, lateness);
            a.recorded.Some? && now <= a.recorded.value
            && Consistent(history + [a.recorded.value], a.times, rpm)
  {
    var kept := Retain(times, now);
    var a := Admit(times, now, rpm, lateness);
    KeptIsRecentSuffix(history, times, rpm, now);
    WindowNeverOverfull(history, times, rpm, now);
    AdmitOutcome(times, now, rpm, lateness);
    WaitBounds(times, now, rpm, lateness);
    assert a.times == kept + [a.recorded.value];
    RecordKeepsConsistent(history, kept, a.recorded.value, rpm, now);
  }
}
