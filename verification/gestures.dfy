/**
 * The two blocking touch waits of src/fw/main.cpp, as functions of the touch
 * input still to come. The input is the sequence of results touch_read will
 * give, one per poll (None: nothing available at that poll); a poll past its
 * end sees nothing.
 *
 * - the long-press wait of loop(): poll every 10 ms for a touch-up until
 *   1000 ms have passed since the touch started;
 * - the selection waits of the menu: poll until a touch-down arrives,
 *   sleeping 10 ms after every poll that brings none.
 */
module Gestures {
  import opened Hal

  type Script = seq<Option<TouchEvent>>

  /** touch_read on a script: the next result, and what is left. */
  function Pop(script: Script): (Option<TouchEvent>, Script) {
    if script == [] then (None, []) else (script[0], script[1..])
  }

  /** The script after n polls. */
  function Drop(script: Script, n: nat): (rest: Script)
    ensures n >= |script| ==> rest == []
    ensures n < |script| ==> rest == script[n..]
  {
    if n >= |script| then [] else script[n..]
  }

  /** k sleeps of 10 ms. */
  function Ticks(k: nat): (e: seq<Effect>)
    ensures |e| == k && forall i :: 0 <= i < k ==> e[i] == Delay(10)
  {
    seq(k, _ => Delay(10))
  }

  lemma TicksSnoc(k: nat)
    ensures Ticks(k) + [Delay(10)] == Ticks(k + 1)
  {
  }

  // ----- the long-press wait -----

  /** How the long-press wait ended: still held when time ran out, or released. */
  datatype ReleaseWait = ReleaseWait(held: bool, clock: nat, rest: Script, polls: nat)

  /**
   * The long-press wait started at `start`, resumed at `clock`: sleep 10 ms,
   * poll, stop on a touch-up; give up holding once 1000 ms have elapsed.
   */
  function AwaitRelease(start: nat, clock: nat, script: Script): (r: ReleaseWait)
    requires start <= clock
    ensures r.clock == clock + 10 * r.polls
    decreases start + 1000 - clock
  {
    if clock - start >= 1000 then ReleaseWait(true, clock, script, 0)
    else
      var (e, rest) := Pop(script);
      if IsUp(e) then ReleaseWait(false, clock + 10, rest, 1)
      else
        var r := AwaitRelease(start, clock + 10, rest);
        r.(polls := r.polls + 1)
  }

  /** The number of polls the wait makes when no touch-up comes. */
  function PollBudget(start: nat, clock: nat): nat
    requires start <= clock
  {
    if clock - start >= 1000 then 0 else (start + 1000 - clock + 9) / 10
  }

  /**
   * The wait ends held exactly when none of the polls it has time for brings a
   * touch-up; then it has polled its whole budget and 1000 ms have passed.
   * Otherwise it stops at the first touch-up, inside the window.
   */
  lemma {:induction false} ReleaseCharacterized(start: nat, clock: nat, script: Script)
    requires start <= clock
    ensures var r := AwaitRelease(start, clock, script);
            var budget := PollBudget(start, clock);
            && (r.held <==> forall i :: 0 <= i < budget && i < |script| ==> !IsUp(script[i]))
            && (r.held ==> r.polls == budget && r.clock >= start + 1000 && r.rest == Drop(script, budget))
            && (!r.held ==> && 1 <= r.polls <= budget && r.polls <= |script|
                            && IsUp(script[r.polls - 1])
                            && (forall i :: 0 <= i < r.polls - 1 ==> !IsUp(script[i]))
                            && r.rest == script[r.polls..]
                            && r.clock < start + 1010)
    decreases start + 1000 - clock
  {
    var r := AwaitRelease(start, clock, script);
    if clock - start < 1000 {
      var (e, rest) := Pop(script);
      if !IsUp(e) {
        ReleaseCharacterized(start, clock + 10, rest);
        var r' := AwaitRelease(start, clock + 10, rest);
        assert PollBudget(start, clock) == PollBudget(start, clock + 10) + 1;
        if script != [] {
          assert forall i :: 0 <= i < |rest| ==> rest[i] == script[i + 1];
          if r'.held {
            assert Drop(rest, PollBudget(start, clock + 10)) == Drop(script, PollBudget(start, clock));
          } else {
            assert rest[r'.polls..] == script[r.polls..];
          }
        }
      }
    }
  }

  /** Started on the poll of the touch-down itself, the wait has time for 100 polls. */
  lemma FreshWindow(clock: nat, script: Script)
    ensures var r := AwaitRelease(clock, clock, script);
            && (r.held <==> forall i :: 0 <= i < 100 && i < |script| ==> !IsUp(script[i]))
            && (r.held ==> r.polls == 100 && r.clock == clock + 1000)
  {
    ReleaseCharacterized(clock, clock, script);
  }

  /** Started 1000 ms or more before it is entered, the wait polls nothing and reports a hold. */
  lemma ExpiredWindow(start: nat, clock: nat, script: Script)
    requires start + 1000 <= clock
    ensures AwaitRelease(start, clock, script) == ReleaseWait(true, clock, script, 0)
  {
  }

  // ----- the selection wait -----

  /** How a wait for a touch-down ended, and how many 10 ms sleeps it made. */
  datatype TapWait = TapWait(found: Option<TouchEvent>, rest: Script, sleeps: nat)

  /** Poll for a touch-down, sleeping 10 ms after each poll without one. */
  function AwaitTap(script: Script): TapWait
    decreases |script|
  {
    if script == [] then TapWait(None, [], 0)
    else if IsDown(script[0]) then TapWait(script[0], script[1..], 0)
    else
      var r := AwaitTap(script[1..]);
      r.(sleeps := r.sleeps + 1)
  }

  /**
   * The wait takes the first touch-down and consumes exactly the polls before
   * it, one sleep each; moves, releases and empty polls are skipped.
   */
  lemma {:induction false} TapCharacterized(script: Script)
    ensures var r := AwaitTap(script);
            && (r.found.Some? <==> exists i :: 0 <= i < |script| && IsDown(script[i]))
            && (r.found.Some? ==> && r.sleeps < |script| && script[r.sleeps] == r.found
                                  && IsDown(r.found)
                                  && (forall j :: 0 <= j < r.sleeps ==> !IsDown(script[j]))
                                  && r.rest == script[r.sleeps + 1..])
            && (r.found.None? ==> r.sleeps == |script| && r.rest == [])
    decreases |script|
  {
    if script != [] && !IsDown(script[0]) {
      var tail := script[1..];
      TapCharacterized(tail);
      assert forall i :: 0 <= i < |tail| ==> tail[i] == script[i + 1];
      if AwaitTap(tail).found.Some? {
        assert tail[AwaitTap(tail).sleeps + 1..] == script[AwaitTap(tail).sleeps + 2..];
      } else {
        forall i | 0 <= i < |script| ensures !IsDown(script[i]) {
          if i > 0 {
            assert script[i] == tail[i - 1];
          }
        }
      }
    }
  }
}
