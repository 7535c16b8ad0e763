/**
 * The acquisition state machine of loop() in src/fw/main.cpp, as functions:
 * the three globals it keeps, the NFC phase (poll every 100 ms, dispatch a
 * ritual once per tag presence), the touch phase (debounce, long press, menu)
 * and one whole pass of the loop.
 */
module Acquisition {
  import opened Hal
  import opened Gestures
  import UidString
  import Rituals
  import Menu

  /** last_nfc_check, last_uid and last_touch_time. */
  datatype Memory = Memory(lastNfcCheck: nat, lastUid: string, lastTouchTime: nat)

  /** The globals before setup() runs: zero, the empty string, zero. */
  const INITIAL_MEMORY: Memory := Memory(0, "", 0)

  // ----- NFC -----

  /** NFC is polled only when more than 100 ms have passed since the last poll. */
  predicate NfcDue(now: nat, lastCheck: nat) {
    now - lastCheck > 100
  }

  /**
   * One NFC poll: the new last_uid and the UID string to dispatch, if any.
   * No tag clears last_uid; a tag reporting an empty UID changes nothing; a
   * tag whose UID string differs from last_uid becomes last_uid and is
   * dispatched.
   */
  function NfcStep(lastUid: string, tag: Option<Uid>): (string, Option<string>) {
    if tag.None? then ("", None)
    else if |tag.value| == 0 then (lastUid, None)
    else
      var s := UidString.Hex(tag.value);
      if s != lastUid then (s, Some(s)) else (lastUid, None)
  }

  /** The NFC half of one pass of the loop, at time `now`, with `tag` in the field. */
  function NfcPhase(cfg: Rituals.RitualConfig, mem: Memory, now: nat, tag: Option<Uid>, w: World): (Memory, Run) {
    if !NfcDue(now, mem.lastNfcCheck) then (mem, Run([], w))
    else
      var (lastUid, d) := NfcStep(mem.lastUid, tag);
      var mem' := mem.(lastNfcCheck := now, lastUid := lastUid);
      if d.Some? then (mem', Rituals.Dispatch(cfg, d.value, w)) else (mem', Run([], w))
  }

  /** A run of due polls: the last UID string afterwards and the UID strings dispatched, in order. */
  function Debounce(lastUid: string, polls: seq<Option<Uid>>): (string, seq<string>)
    decreases |polls|
  {
    if polls == [] then (lastUid, [])
    else
      var step := NfcStep(lastUid, polls[0]);
      var later := Debounce(step.0, polls[1..]);
      (later.0, (if step.1.Some? then [step.1.value] else []) + later.1)
  }

  lemma {:induction false} DebounceAppend(lastUid: string, a: seq<Option<Uid>>, b: seq<Option<Uid>>)
    ensures var first := Debounce(lastUid, a);
            var second := Debounce(first.0, b);
            Debounce(lastUid, a + b) == (second.0, first.1 + second.1)
    decreases |a|
  {
    if a != [] {
      assert (a + b)[0] == a[0];
      assert (a + b)[1..] == a[1..] + b;
      var step := NfcStep(lastUid, a[0]);
      DebounceAppend(step.0, a[1..], b);
      var e := if step.1.Some? then [step.1.value] else [];
      var d1 := Debounce(step.0, a[1..]);
      var d2 := Debounce(d1.0, b);
      assert Debounce(lastUid, a) == (d1.0, e + d1.1);
      assert Debounce(lastUid, a + b) == (d2.0, e + (d1.1 + d2.1));
      assert e + (d1.1 + d2.1) == (e + d1.1) + d2.1;
    } else {
      assert a + b == b;
      assert Debounce(lastUid, a).1 + Debounce(lastUid, b).1 == Debounce(lastUid, b).1;
    }
  }

  /** A tag held in the field for k >= 1 due polls is dispatched once, on the first one. */
  lemma {:induction false} PresenceDispatchesOnce(lastUid: string, u: Uid, k: nat)
    requires |u| > 0 && k >= 1 && lastUid != UidString.Hex(u)
    ensures Debounce(lastUid, seq(k, _ => Some(u))) == (UidString.Hex(u), [UidString.Hex(u)])
  {
    var polls := seq(k, _ => Some(u));
    var s := UidString.Hex(u);
    assert polls == [Some(u)] + seq(k - 1, _ => Some(u));
    assert Debounce(lastUid, [Some(u)]) == (s, [s]) by {
      assert [Some(u)][1..] == [];
      assert [s] + [] == [s];
    }
    DebounceAppend(lastUid, [Some(u)], seq(k - 1, _ => Some(u)));
    StillPresent(u, k - 1);
    assert [s] + [] == [s];
  }

  /** While the same tag stays, nothing more is dispatched. */
  lemma {:induction false} StillPresent(u: Uid, k: nat)
    requires |u| > 0
    ensures Debounce(UidString.Hex(u), seq(k, _ => Some(u))) == (UidString.Hex(u), [])
  {
    if k > 0 {
      var polls := seq(k, _ => Some(u));
      assert polls[0] == Some(u);
      assert polls[1..] == seq(k - 1, _ => Some(u));
      StillPresent(u, k - 1);
      assert [] + Debounce(UidString.Hex(u), polls[1..]).1 == [];
    }
  }

  /** A poll that finds the field empty clears last_uid and dispatches nothing. */
  lemma EmptyFieldClears(lastUid: string)
    ensures Debounce(lastUid, [None]) == ("", [])
  {
    var none: seq<Option<Uid>> := [None];
    assert none[0] == None && none[1..] == [];
    assert NfcStep(lastUid, None) == ("", None);
    var e: seq<string> := [];
    assert e + e == [];
  }

  /** A presence session: the field is found empty once, then the tag is there for `polls` due polls. */
  function Session(u: Uid, polls: nat): seq<Option<Uid>> {
    [None] + seq(polls, _ => Some(u))
  }

  function Sessions(s: seq<(Uid, nat)>): seq<Option<Uid>>
    decreases |s|
  {
    if s == [] then [] else Sessions(s[..|s| - 1]) + Session(s[|s| - 1].0, s[|s| - 1].1)
  }

  function UidStrings(s: seq<(Uid, nat)>): (r: seq<string>)
    ensures |r| == |s| && forall i :: 0 <= i < |s| ==> r[i] == UidString.Hex(s[i].0)
  {
    seq(|s|, i requires 0 <= i < |s| => UidString.Hex(s[i].0))
  }

  /**
   * Exactly one dispatch per contiguous presence interval: over any series of
   * sessions, each separated from the previous by an empty field, the rituals
   * dispatched are one per session, for that session's tag, in order, even
   * when the same tag comes back.
   */
  lemma {:induction false} OneDispatchPerSession(lastUid: string, s: seq<(Uid, nat)>)
    requires forall i :: 0 <= i < |s| ==> |s[i].0| > 0 && s[i].1 >= 1
    ensures Debounce(lastUid, Sessions(s)).1 == UidStrings(s)
    ensures s != [] ==> Debounce(lastUid, Sessions(s)).0 == UidString.Hex(s[|s| - 1].0)
    decreases |s|
  {
    if s != [] {
      var init, u, k := s[..|s| - 1], s[|s| - 1].0, s[|s| - 1].1;
      OneDispatchPerSession(lastUid, init);
      var l1 := Debounce(lastUid, Sessions(init)).0;
      assert Debounce(lastUid, Sessions(s)) == (UidString.Hex(u), UidStrings(init) + [UidString.Hex(u)]) by {
        assert Sessions(s) == Sessions(init) + Session(u, k);
        DebounceAppend(lastUid, Sessions(init), Session(u, k));
        OneSession(l1, u, k);
      }
      UidStringsSnoc(s);
    }
  }

  lemma UidStringsSnoc(s: seq<(Uid, nat)>)
    requires s != []
    ensures UidStrings(s) == UidStrings(s[..|s| - 1]) + [UidString.Hex(s[|s| - 1].0)]
  {
  }

  /** A single session dispatches its tag once, whatever the previous last_uid. */
  lemma OneSession(lastUid: string, u: Uid, k: nat)
    requires |u| > 0 && k >= 1
    ensures Debounce(lastUid, Session(u, k)) == (UidString.Hex(u), [UidString.Hex(u)])
  {
    var h := UidString.Hex(u);
    EmptyFieldClears(lastUid);
    DebounceAppend(lastUid, [None], seq(k, _ => Some(u)));
    UidString.HexShape(u);
    PresenceDispatchesOnce("", u, k);
    var empty: seq<string> := [];
    assert empty + [h] == [h];
  }

  /** Swapping one tag for another without an empty poll between dispatches exactly when the UIDs differ. */
  lemma SwapDispatches(u1: Uid, u2: Uid)
    requires |u2| > 0
    ensures Debounce(UidString.Hex(u1), [Some(u2)]).1 == if u1 == u2 then [] else [UidString.Hex(u2)]
  {
    UidString.HexInjective(u1, u2);
  }

  // ----- touch -----

  /** A touch-down is acted on only when more than 500 ms have passed since the last accepted one. */
  predicate TouchDue(now: nat, lastTouch: nat) {
    now - lastTouch > 500
  }

  /** A run followed by another that starts where the first ended. */
  function Then(a: Run, b: Run): Run {
    Run(a.effects + b.effects, b.after)
  }

  /**
   * The long-press branch: show the menu, wait for a touch-down, act on it.
   * The wait gives up when the touch input runs out.
   */
  function MenuSession(cfg: Rituals.RitualConfig, w: World): Run {
    var tap := AwaitTap(w.touches);
    var waited := Run(Menu.MenuScreen() + Ticks(tap.sleeps),
                      w.(clock := w.clock + 10 * tap.sleeps, touches := tap.rest));
    if tap.found.Some? then Then(waited, Menu.Selection(cfg, tap.found.value.y, waited.after)) else waited
  }

  /**
   * The touch half of one pass: read one event; a touch-down that is due
   * becomes the last touch and starts the long-press wait, whose window
   * opened at `start`; a hold shows the menu.
   */
  function TouchPhase(cfg: Rituals.RitualConfig, lastTouch: nat, now: nat, start: nat, w: World): (nat, Run)
    requires start <= w.clock
  {
    var (e, rest) := Pop(w.touches);
    var w1 := w.(touches := rest);
    if !IsDown(e) || !TouchDue(now, lastTouch) then (lastTouch, Run([], w1))
    else
      var hold := AwaitRelease(start, w.clock, rest);
      var waited := Run(Ticks(hold.polls), w1.(clock := hold.clock, touches := hold.rest));
      if hold.held then (now, Then(waited, MenuSession(cfg, waited.after))) else (now, waited)
  }

  /**
   * One pass of loop() as written: `now` is read once at the top, and the
   * long-press window is measured from it even when a ritual ran in between.
   */
  function CycleAsWritten(cfg: Rituals.RitualConfig, mem: Memory, tag: Option<Uid>, w: World): (Memory, Run) {
    var now := w.clock;
    var (mem1, nfc) := NfcPhase(cfg, mem, now, tag, w);
    CycleTail(cfg, mem1, now, now, nfc)
  }

  /** One pass of loop() with the long-press window opened when the touch-down is read. */
  function Cycle(cfg: Rituals.RitualConfig, mem: Memory, tag: Option<Uid>, w: World): (Memory, Run) {
    var now := w.clock;
    var (mem1, nfc) := NfcPhase(cfg, mem, now, tag, w);
    CycleTail(cfg, mem1, now, nfc.after.clock, nfc)
  }

  /** The touch phase after the NFC phase `nfc`, then the 10 ms pause that ends every pass. */
  function CycleTail(cfg: Rituals.RitualConfig, mem1: Memory, now: nat, start: nat, nfc: Run): (Memory, Run)
    requires start <= nfc.after.clock
  {
    var (lastTouch, touch) := TouchPhase(cfg, mem1.lastTouchTime, now, start, nfc.after);
    var a := touch.after;
    (mem1.(lastTouchTime := lastTouch), Run(nfc.effects + touch.effects + [Delay(10)], a.(clock := a.clock + 10)))
  }

  lemma NfcPhaseAdvances(cfg: Rituals.RitualConfig, mem: Memory, now: nat, tag: Option<Uid>, w: World)
    ensures NfcPhase(cfg, mem, now, tag, w).1.after.clock >= w.clock
  {
    if NfcDue(now, mem.lastNfcCheck) {
      var d := NfcStep(mem.lastUid, tag).1;
      if d.Some? {
        Rituals.DispatchTiming(cfg, d.value, w);
      }
    }
  }

  /**
   * The NFC phase: a poll happens only when due and then records its time;
   * a ritual runs only for a tag whose UID string differs from last_uid, which
   * holds that string from then on; an empty field clears last_uid.
   */
  lemma NfcPhaseSpec(cfg: Rituals.RitualConfig, mem: Memory, now: nat, tag: Option<Uid>, w: World)
    ensures var (m, r) := NfcPhase(cfg, mem, now, tag, w);
            && (!NfcDue(now, mem.lastNfcCheck) ==> m == mem && r == Run([], w))
            && (NfcDue(now, mem.lastNfcCheck) ==> m.lastNfcCheck == now && m.lastTouchTime == mem.lastTouchTime)
            && (NfcDue(now, mem.lastNfcCheck) && tag.None? ==> m.lastUid == "" && r == Run([], w))
            && (NfcDue(now, mem.lastNfcCheck) && tag.Some? && r == Run([], w) ==> m.lastUid == mem.lastUid)
            && (r != Run([], w) <==> NfcDue(now, mem.lastNfcCheck) && tag.Some? && |tag.value| > 0
                                     && UidString.Hex(tag.value) != mem.lastUid)
            && (r != Run([], w) ==> m.lastUid == UidString.Hex(tag.value)
                                    && r == Rituals.Dispatch(cfg, UidString.Hex(tag.value), w))
  {
    if NfcDue(now, mem.lastNfcCheck) && tag.Some? && |tag.value| > 0 && UidString.Hex(tag.value) != mem.lastUid {
      Rituals.DispatchTiming(cfg, UidString.Hex(tag.value), w);
    }
  }

  /**
   * The touch phase consumes exactly one event when it is not a due
   * touch-down, and then changes nothing else.
   */
  lemma TouchIgnored(cfg: Rituals.RitualConfig, lastTouch: nat, now: nat, start: nat, w: World)
    requires start <= w.clock
    requires w.touches != []
    requires !IsDown(w.touches[0]) || !TouchDue(now, lastTouch)
    ensures TouchPhase(cfg, lastTouch, now, start, w) == (lastTouch, Run([], w.(touches := w.touches[1..])))
  {
  }

  /**
   * Read on the poll that brings it, a due touch-down opens the menu exactly
   * when none of the next 100 polls brings a touch-up; a release is a tap and
   * costs one 10 ms sleep per poll up to it.
   */
  lemma LongPressOpensMenu(cfg: Rituals.RitualConfig, lastTouch: nat, now: nat, w: World)
    requires w.touches != [] && IsDown(w.touches[0]) && TouchDue(now, lastTouch)
    ensures var rest := w.touches[1..];
            var (t, r) := TouchPhase(cfg, lastTouch, now, w.clock, w);
            && t == now
            && ((forall i :: 0 <= i < 100 && i < |rest| ==> !IsUp(rest[i]))
                <==> |r.effects| >= 108 && r.effects[..100] == Ticks(100) && r.effects[100..108] == Menu.MenuScreen())
            && (!(forall i :: 0 <= i < 100 && i < |rest| ==> !IsUp(rest[i]))
                ==> exists k :: 1 <= k <= 100 && k <= |rest| && r.effects == Ticks(k) && IsUp(rest[k - 1]))
  {
    var rest := w.touches[1..];
    FreshWindow(w.clock, rest);
    ReleaseCharacterized(w.clock, w.clock, rest);
    var hold := AwaitRelease(w.clock, w.clock, rest);
    var r := TouchPhase(cfg, lastTouch, now, w.clock, w).1;
    if hold.held {
      var m := MenuSession(cfg, World(w.store, hold.clock, hold.rest));
      assert r.effects == Ticks(100) + m.effects;
      assert m.effects[..8] == Menu.MenuScreen();
    } else {
      assert r.effects == Ticks(hold.polls);
    }
  }

  // ----- successive passes -----

  /**
   * What a run of passes leaves: the globals, the world, what the passes whose
   * NFC poll was due found in the field, and the UID strings of the rituals
   * that ran, in order.
   */
  datatype Trail = Trail(mem: Memory, after: World, polled: seq<Option<Uid>>, ran: seq<string>)

  /** One pass of loop(): as written when `asWritten`, otherwise with the corrected long-press window. */
  function Pass(cfg: Rituals.RitualConfig, asWritten: bool, mem: Memory, tag: Option<Uid>, w: World): (Memory, Run) {
    if asWritten then CycleAsWritten(cfg, mem, tag, w) else Cycle(cfg, mem, tag, w)
  }

  /** Passes of loop() one after another, with `tags[i]` in the field during pass i. */
  function Passes(cfg: Rituals.RitualConfig, asWritten: bool, mem: Memory, tags: seq<Option<Uid>>, w: World): Trail
    decreases |tags|
  {
    if tags == [] then Trail(mem, w, [], [])
    else
      var (m1, nfc) := NfcPhase(cfg, mem, w.clock, tags[0], w);
      var (m, r) := Pass(cfg, asWritten, mem, tags[0], w);
      var later := Passes(cfg, asWritten, m, tags[1..], r.after);
      Trail(later.mem, later.after,
            (if NfcDue(w.clock, mem.lastNfcCheck) then [tags[0]] else []) + later.polled,
            (if nfc != Run([], w) then [m1.lastUid] else []) + later.ran)
  }

  /**
   * One pass seen from the debounce, for the loop as written and the corrected
   * one alike: the pass keeps the last_uid its NFC phase leaves, a pass that is
   * not due changes nothing, and a due one moves last_uid as NfcStep does and
   * runs a ritual exactly when NfcStep dispatches.
   */
  lemma PassStep(cfg: Rituals.RitualConfig, asWritten: bool, mem: Memory, tag: Option<Uid>, w: World)
    ensures var (m1, nfc) := NfcPhase(cfg, mem, w.clock, tag, w);
            var step := NfcStep(mem.lastUid, tag);
            && Pass(cfg, asWritten, mem, tag, w).0.lastUid == m1.lastUid
            && (!NfcDue(w.clock, mem.lastNfcCheck) ==> m1 == mem && nfc == Run([], w))
            && (NfcDue(w.clock, mem.lastNfcCheck) ==>
                  && m1.lastUid == step.0
                  && (nfc != Run([], w) <==> step.1.Some?)
                  && (step.1.Some? ==> step.1.value == m1.lastUid))
  {
    var step := NfcStep(mem.lastUid, tag);
    if NfcDue(w.clock, mem.lastNfcCheck) && step.1.Some? {
      Rituals.DispatchTiming(cfg, step.1.value, w);
    }
  }

  /**
   * Over any run of passes, of the loop as written or the corrected one,
   * whatever the touch input and however long the rituals take, the rituals
   * that run are exactly those the debounce of the due polls dispatches, and
   * last_uid ends where that debounce leaves it.
   */
  lemma {:induction false} PassesDebounce(cfg: Rituals.RitualConfig, asWritten: bool, mem: Memory,
                                          tags: seq<Option<Uid>>, w: World)
    ensures var t := Passes(cfg, asWritten, mem, tags, w);
            Debounce(mem.lastUid, t.polled) == (t.mem.lastUid, t.ran)
    decreases |tags|
  {
    if tags != [] {
      var (m, r) := Pass(cfg, asWritten, mem, tags[0], w);
      PassStep(cfg, asWritten, mem, tags[0], w);
      PassesDebounce(cfg, asWritten, m, tags[1..], r.after);
      var later := Passes(cfg, asWritten, m, tags[1..], r.after);
      if NfcDue(w.clock, mem.lastNfcCheck) {
        var polled := [tags[0]] + later.polled;
        assert polled[0] == tags[0] && polled[1..] == later.polled;
      } else {
        assert m.lastUid == mem.lastUid;
        assert Passes(cfg, asWritten, mem, tags, w) == Trail(later.mem, later.after, [] + later.polled, [] + later.ran);
        assert [] + later.polled == later.polled && [] + later.ran == later.ran;
      }
    }
  }

  /**
   * Exactly one ritual per contiguous presence interval, over whole passes of
   * the loop as written or the corrected one: when the due polls form a series
   * of sessions, the rituals that run are one per session, for that session's
   * tag, in order.
   */
  lemma PassesOneDispatchPerSession(cfg: Rituals.RitualConfig, asWritten: bool, mem: Memory,
                                    tags: seq<Option<Uid>>, w: World, s: seq<(Uid, nat)>)
    requires forall i :: 0 <= i < |s| ==> |s[i].0| > 0 && s[i].1 >= 1
    requires Passes(cfg, asWritten, mem, tags, w).polled == Sessions(s)
    ensures Passes(cfg, asWritten, mem, tags, w).ran == UidStrings(s)
  {
    PassesDebounce(cfg, asWritten, mem, tags, w);
    OneDispatchPerSession(mem.lastUid, s);
  }

  // ----- the stale long-press window -----

  const TAP_DOWN: TouchEvent := TouchEvent(100, 60, TOUCH_DOWN, 0)
  const TAP_UP: TouchEvent := TouchEvent(100, 60, TOUCH_UP, 0)

  /**
   * A window opened 1000 ms or more before the touch-down is read: the menu
   * opens straight away, whatever the touch input holds after the touch-down.
   */
  lemma StaleTail(cfg: Rituals.RitualConfig, m1: Memory, now: nat, nfc: Run)
    requires now + 1000 <= nfc.after.clock
    requires nfc.after.touches != [] && IsDown(nfc.after.touches[0]) && TouchDue(now, m1.lastTouchTime)
    ensures var r := CycleTail(cfg, m1, now, now, nfc).1;
            |r.effects| >= |nfc.effects| + 8 && r.effects[|nfc.effects|..|nfc.effects| + 8] == Menu.MenuScreen()
  {
    var a := nfc.after;
    var rest := a.touches[1..];
    ExpiredWindow(now, a.clock, rest);
    var m := MenuSession(cfg, World(a.store, a.clock, rest));
    var r := CycleTail(cfg, m1, now, now, nfc).1;
    assert r.effects == nfc.effects + (Ticks(0) + m.effects) + [Delay(10)];
    assert m.effects[..8] == Menu.MenuScreen();
  }

  /**
   * As written, a touch-down read after a ritual ran in the same pass opens
   * the menu even though the very next poll brings its release: the window
   * was opened at the top of the pass and the ritual has already used it up.
   */
  lemma StaleWindowTapOpensMenu(cfg: Rituals.RitualConfig, mem: Memory, u: Uid, store: map<string, Blob>, clock: nat)
    requires |u| > 0 && UidString.Hex(u) != mem.lastUid
    requires mem.lastNfcCheck + 100 < clock && mem.lastTouchTime + 500 < clock
    ensures var w := World(store, clock, [Some(TAP_DOWN), Some(TAP_UP)]);
            var r := CycleAsWritten(cfg, mem, Some(u), w).1;
            var d := Rituals.Dispatch(cfg, UidString.Hex(u), w);
            |r.effects| >= |d.effects| + 8 && r.effects[|d.effects|..|d.effects| + 8] == Menu.MenuScreen()
  {
    var w := World(store, clock, [Some(TAP_DOWN), Some(TAP_UP)]);
    var d := Rituals.Dispatch(cfg, UidString.Hex(u), w);
    var m1 := Memory(clock, UidString.Hex(u), mem.lastTouchTime);
    NewTagPhase(cfg, mem, u, w);
    assert d.after.touches == w.touches && clock + 1000 <= d.after.clock by {
      Rituals.DispatchTiming(cfg, UidString.Hex(u), w);
    }
    StaleTail(cfg, m1, clock, d);
    assert CycleAsWritten(cfg, mem, Some(u), w) == CycleTail(cfg, m1, clock, clock, d);
  }

  /** A due poll that finds a new, non-empty UID records its string and runs the ritual for it. */
  lemma NewTagPhase(cfg: Rituals.RitualConfig, mem: Memory, u: Uid, w: World)
    requires |u| > 0 && UidString.Hex(u) != mem.lastUid && NfcDue(w.clock, mem.lastNfcCheck)
    ensures NfcPhase(cfg, mem, w.clock, Some(u), w)
            == (Memory(w.clock, UidString.Hex(u), mem.lastTouchTime), Rituals.Dispatch(cfg, UidString.Hex(u), w))
  {
  }

  /** A tap read with its window fresh: one poll finds the release, then the pass ends. */
  lemma FreshTail(cfg: Rituals.RitualConfig, m1: Memory, now: nat, nfc: Run)
    requires nfc.after.touches == [Some(TAP_DOWN), Some(TAP_UP)] && TouchDue(now, m1.lastTouchTime)
    ensures var r := CycleTail(cfg, m1, now, nfc.after.clock, nfc).1;
            r.effects == nfc.effects + [Delay(10), Delay(10)] && r.after.touches == []
  {
    var a := nfc.after;
    var hold := AwaitRelease(a.clock, a.clock, [Some(TAP_UP)]);
    assert hold == ReleaseWait(false, a.clock + 10, [], 1);
    assert Ticks(1) == [Delay(10)];
  }

  /** With the window opened at the touch-down, the same pass treats the tap as a tap. */
  lemma FreshWindowTapIsTap(cfg: Rituals.RitualConfig, mem: Memory, u: Uid, store: map<string, Blob>, clock: nat)
    requires |u| > 0 && UidString.Hex(u) != mem.lastUid
    requires mem.lastNfcCheck + 100 < clock && mem.lastTouchTime + 500 < clock
    ensures var w := World(store, clock, [Some(TAP_DOWN), Some(TAP_UP)]);
            var r := Cycle(cfg, mem, Some(u), w).1;
            var d := Rituals.Dispatch(cfg, UidString.Hex(u), w);
            r.effects == d.effects + [Delay(10), Delay(10)] && r.after.touches == []
  {
    var w := World(store, clock, [Some(TAP_DOWN), Some(TAP_UP)]);
    var d := Rituals.Dispatch(cfg, UidString.Hex(u), w);
    var m1 := Memory(clock, UidString.Hex(u), mem.lastTouchTime);
    NewTagPhase(cfg, mem, u, w);
    assert d.after.touches == w.touches by {
      Rituals.DispatchTiming(cfg, UidString.Hex(u), w);
    }
    FreshPass(cfg, mem, Some(u), w, m1, d);
  }

  lemma FreshPass(cfg: Rituals.RitualConfig, mem: Memory, tag: Option<Uid>, w: World, m1: Memory, nfc: Run)
    requires NfcPhase(cfg, mem, w.clock, tag, w) == (m1, nfc)
    requires nfc.after.touches == [Some(TAP_DOWN), Some(TAP_UP)] && TouchDue(w.clock, m1.lastTouchTime)
    ensures var r := Cycle(cfg, mem, tag, w).1;
            r.effects == nfc.effects + [Delay(10), Delay(10)] && r.after.touches == []
  {
    FreshTail(cfg, m1, w.clock, nfc);
  }
}
