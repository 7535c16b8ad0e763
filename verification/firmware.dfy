/**
 * The firmware of src/fw/main.cpp as an object: its globals are the fields
 * of a Node, and every function of the firmware is a method that makes the
 * same HAL calls, in the same order, on a recording Device. Each method is
 * proved to produce exactly the effects and the device state that the
 * corresponding function of Rituals, Menu or Acquisition specifies.
 */
module Firmware {
  import opened Hal
  import opened Text
  import opened Gestures
  import UidString
  import Counter
  import Rituals
  import Menu
  import Acquisition

  /** current_ritual before setup(): a zero-initialised static. */
  const BLANK_CONFIG: Rituals.RitualConfig := Rituals.RitualConfig("", "", Rituals.SaveMoment, "0.00", "", "", "", "")

  /** Concatenation of traces is associative. */
  lemma Associative(a: seq<Effect>, b: seq<Effect>, c: seq<Effect>)
    ensures a + b + c == a + (b + c)
  {
  }

  class Node {
    var config: Rituals.RitualConfig
    var initialized: bool
    var lastNfcCheck: nat
    var lastUid: string
    var lastTouchTime: nat

    function Memory(): Acquisition.Memory
      reads this
    {
      Acquisition.Memory(lastNfcCheck, lastUid, lastTouchTime)
    }

    /** The remembered times are never ahead of the clock, so unsigned differences of them are plain differences. */
    ghost predicate Synced(dev: Device)
      reads this, dev
    {
      lastNfcCheck <= dev.clock && lastTouchTime <= dev.clock
    }

    constructor ()
      ensures config == BLANK_CONFIG && !initialized
      ensures Memory() == Acquisition.INITIAL_MEMORY
    {
      config := BLANK_CONFIG;
      initialized := false;
      lastNfcCheck, lastUid, lastTouchTime := 0, "", 0;
    }

    /** show_status_message */
    method ShowStatus(dev: Device, message: string)
      modifies dev`trace
      ensures dev.trace == old(dev.trace) + Rituals.StatusScreen(config.labelText, message)
    {
      dev.Clear();
      dev.Draw(10, 10, "MELD Node", 2);
      dev.Draw(10, 50, config.labelText, 1);
      dev.Draw(10, 80, "Status:", 1);
      dev.Draw(10, 100, message, 1);
      dev.Update(true);
    }

    /** show_ready_screen */
    method ShowReady(dev: Device)
      modifies dev`trace
      ensures dev.trace == old(dev.trace) + Rituals.ReadyScreen(config.labelText)
    {
      dev.Clear();
      dev.Draw(50, 50, "MELD Node", 3);
      dev.Draw(30, 120, config.labelText, 2);
      dev.Draw(10, 180, "Tap NFC tag to activate", 1);
      dev.Draw(10, 200, "Touch screen for menu", 1);
      dev.Update(false);
    }

    /** The closing of every handler: a status message, a dwell, the ready screen. */
    method Close(dev: Device, message: string, dwell: nat)
      modifies dev`trace, dev`clock
      ensures dev.trace == old(dev.trace) + Rituals.StatusScreen(config.labelText, message) + [Delay(dwell)]
                           + Rituals.ReadyScreen(config.labelText)
      ensures dev.clock == old(dev.clock) + dwell
    {
      ShowStatus(dev, message);
      dev.Sleep(dwell);
      ShowReady(dev);
    }

    /**
     * The storing step shared by the handlers that keep a record: the key is
     * the record prefix followed by millis() in decimal.
     */
    method SaveRecord(dev: Device, prefix: string, record: Blob)
      modifies dev`trace, dev`store
      ensures dev.trace == old(dev.trace) + [Save(RecordKey(prefix, dev.clock), record)]
      ensures dev.store == old(dev.store)[RecordKey(prefix, dev.clock) := record]
    {
      var keyStamp := dev.Millis();
      var saved := dev.StorageSave(RecordKey(prefix, keyStamp), record);
    }

    /** execute_save_moment */
    method SaveMoment(dev: Device, uid: string)
      modifies dev`trace, dev`store, dev`clock
      ensures dev.trace == old(dev.trace) + Rituals.RunSaveMoment(config, uid, old(dev.State())).effects
      ensures dev.State() == Rituals.RunSaveMoment(config, uid, old(dev.State())).after
    {
      ghost var w0 := dev.State();
      ghost var t0 := dev.trace;
      ShowStatus(dev, "Saving moment...");
      ghost var t1 := dev.trace;
      dev.Blink(3, 200);
      dev.BuzzSuccess();
      var stamp := dev.Millis();
      var record := Rituals.MomentRecord(uid, config, stamp);
      SaveRecord(dev, "moment_", record);
      ghost var body := [LedBlink(3, 200), ToneSuccess, Save(RecordKey("moment_", stamp), record)];
      assert dev.trace == t1 + body;
      Close(dev, "Moment saved!", 2000);
      assert dev.trace == t0 + Rituals.RunSaveMoment(config, uid, w0).effects by {
        Rituals.FramedPieces(t0, config.labelText, "Saving moment...", body, "Moment saved!", 2000);
      }
    }

    /** The feedback of execute_send_tip: five blinks and a rising three-tone chime. */
    method TipChime(dev: Device)
      modifies dev`trace, dev`clock
      ensures dev.trace == old(dev.trace) + [LedBlink(5, 100), Tone(800, 100), Delay(120), Tone(1000, 100), Delay(120), Tone(1200, 150)]
      ensures dev.clock == old(dev.clock) + 240
    {
      ghost var t1 := dev.trace;
      dev.Blink(5, 100);
      dev.Buzz(800, 100);
      dev.Sleep(120);
      assert dev.trace == t1 + [LedBlink(5, 100), Tone(800, 100), Delay(120)];
      dev.Buzz(1000, 100);
      dev.Sleep(120);
      dev.Buzz(1200, 150);
    }

    /** execute_send_tip */
    method SendTip(dev: Device, uid: string)
      modifies dev`trace, dev`store, dev`clock
      ensures dev.trace == old(dev.trace) + Rituals.RunSendTip(config, uid, old(dev.State())).effects
      ensures dev.State() == Rituals.RunSendTip(config, uid, old(dev.State())).after
    {
      ghost var w0 := dev.State();
      ghost var t0 := dev.trace;
      ShowStatus(dev, "Sending tip...");
      ghost var t1 := dev.trace;
      TipChime(dev);
      var stamp := dev.Millis();
      var record := Rituals.TipRecord(uid, config, stamp);
      SaveRecord(dev, "tip_", record);
      ghost var body := [LedBlink(5, 100), Tone(800, 100), Delay(120), Tone(1000, 100), Delay(120), Tone(1200, 150),
                         Save(RecordKey("tip_", stamp), record)];
      assert dev.trace == t1 + body;
      Close(dev, "Tip sent: $" + config.tipAmount, 2000);
      assert dev.trace == t0 + Rituals.RunSendTip(config, uid, w0).effects by {
        Rituals.FramedPieces(t0, config.labelText, "Sending tip...", body, "Tip sent: $" + config.tipAmount, 2000);
      }
    }

    /** The feedback of execute_vote: a long tone under the LED for A, blinks and a falling pair of tones for B. */
    method VoteFeedback(dev: Device, optionA: bool)
      modifies dev`trace, dev`clock
      ensures dev.trace == old(dev.trace) + Rituals.VoteFeedback(optionA)
      ensures dev.clock == old(dev.clock) + (if optionA then 0 else 100)
    {
      if optionA {
        dev.SetLed(true);
        dev.Buzz(1000, 500);
        dev.SetLed(false);
      } else {
        dev.Blink(2, 250);
        dev.Buzz(800, 300);
        dev.Sleep(100);
        dev.Buzz(600, 300);
      }
    }

    /** execute_vote */
    method Vote(dev: Device, uid: string, optionA: bool)
      modifies dev`trace, dev`store, dev`clock
      ensures dev.trace == old(dev.trace) + Rituals.RunVote(config, uid, optionA, old(dev.State())).effects
      ensures dev.State() == Rituals.RunVote(config, uid, optionA, old(dev.State())).after
    {
      ghost var w0 := dev.State();
      var option := Rituals.OptionName(optionA);
      ghost var t0 := dev.trace;
      ShowStatus(dev, "Voting " + option + "...");
      ghost var t1 := dev.trace;
      VoteFeedback(dev, optionA);
      var stamp := dev.Millis();
      assert stamp == w0.clock + (if optionA then 0 else 100);
      var record := Rituals.VoteRecord(uid, optionA, config, stamp);
      SaveRecord(dev, "vote_", record);
      ghost var body := Rituals.VoteFeedback(optionA) + [Save(RecordKey("vote_", stamp), record)];
      assert dev.trace == t1 + body;
      Close(dev, "Vote " + option + " recorded", 2000);
      assert dev.trace == t0 + Rituals.RunVote(config, uid, optionA, w0).effects by {
        Rituals.FramedPieces(t0, config.labelText, "Voting " + option + "...", body, "Vote " + option + " recorded", 2000);
      }
    }

    /**
     * The storage half of execute_increment_counter: load the four counter
     * bytes into a zeroed buffer, decode, increment, encode back into the same
     * buffer, save it.
     */
    method StepCounter(dev: Device, key: string) returns (current: Counter.u32)
      modifies dev`trace, dev`store
      ensures current == Counter.Next(Counter.StoredCount(old(dev.store), key))
      ensures dev.trace == old(dev.trace) + [Load(key), Save(key, Raw(Counter.Encode(current)))]
      ensures dev.store == Counter.Increment(old(dev.store), key)
    {
      var countData := new byte[4](_ => 0);
      var loaded := dev.StorageLoad(key, countData);
      assert countData[..] == Counter.LoadedBuffer(Fetch(dev.store, key)[..loaded]);
      current := Counter.Decode(countData[..]);
      current := Counter.Next(current);
      countData[0] := current / 0x100_0000 % 0x100;
      countData[1] := current / 0x1_0000 % 0x100;
      countData[2] := current / 0x100 % 0x100;
      countData[3] := current % 0x100;
      assert countData[..] == Counter.Encode(current);
      var saved := dev.StorageSave(key, Raw(countData[..]));
    }

    /** execute_increment_counter */
    method IncrementCounter(dev: Device, uid: string)
      modifies dev`trace, dev`store, dev`clock
      ensures dev.trace == old(dev.trace) + Rituals.RunIncrementCounter(config, uid, old(dev.State())).effects
      ensures dev.State() == Rituals.RunIncrementCounter(config, uid, old(dev.State())).after
    {
      ghost var t0 := dev.trace;
      var key := config.counterName;
      ShowStatus(dev, "Updating counter...");
      ghost var t1 := dev.trace;
      var current := StepCounter(dev, key);
      dev.Blink(Counter.BlinkCount(current), 150);
      dev.Buzz(Counter.ToneHz(current), 200);
      ghost var body := [Load(key), Save(key, Raw(Counter.Encode(current))),
                         LedBlink(Counter.BlinkCount(current), 150), Tone(Counter.ToneHz(current), 200)];
      assert dev.trace == t1 + body;
      Close(dev, key + ": " + Dec(current), 2000);
      Rituals.FramedPieces(t0, config.labelText, "Updating counter...", body, key + ": " + Dec(current), 2000);
    }

    /** Cycle i of the "rainbow" pattern: the tone rises 100 Hz a cycle from 500 Hz. */
    method RainbowStep(dev: Device, i: nat)
      requires i < 10
      modifies dev`trace, dev`clock
      ensures dev.trace == old(dev.trace) + Rituals.RainbowCycle(i)
      ensures dev.clock == old(dev.clock) + 150
    {
      dev.SetLed(true);
      dev.Buzz(500 + i * 100, 100);
      dev.Sleep(100);
      dev.SetLed(false);
      dev.Sleep(50);
    }

    /** The "rainbow" light pattern: ten cycles of a lit LED with a rising tone. */
    method PlayRainbow(dev: Device)
      modifies dev`trace, dev`clock
      ensures dev.trace == old(dev.trace) + Rituals.Rainbow(10)
      ensures dev.clock == old(dev.clock) + 1500
    {
      ghost var t1 := dev.trace;
      ghost var c1 := dev.clock;
      for i := 0 to 10
        invariant dev.trace == t1 + Rituals.Rainbow(i)
        invariant dev.clock == c1 + 150 * i
      {
        RainbowStep(dev, i);
        assert dev.trace == t1 + Rituals.Rainbow(i) + Rituals.RainbowCycle(i);
      }
    }

    /** The "pulse" light pattern: five quick flashes. */
    method PlayPulse(dev: Device)
      modifies dev`trace, dev`clock
      ensures dev.trace == old(dev.trace) + Rituals.Pulse(5)
      ensures dev.clock == old(dev.clock) + 500
    {
      ghost var t1 := dev.trace;
      ghost var c1 := dev.clock;
      for i := 0 to 5
        invariant dev.trace == t1 + Rituals.Pulse(i)
        invariant dev.clock == c1 + 100 * i
      {
        dev.SetLed(true);
        dev.Sleep(50);
        dev.SetLed(false);
        dev.Sleep(50);
        assert dev.trace == t1 + Rituals.Pulse(i) + Rituals.PulseCycle();
      }
    }

    /** The light effect of execute_trigger_light, chosen by the configured pattern. */
    method LightShow(dev: Device)
      modifies dev`trace, dev`clock
      ensures dev.trace == old(dev.trace) + Rituals.LightPattern(config.lightPattern).0
      ensures dev.clock == old(dev.clock) + Rituals.LightPattern(config.lightPattern).1
    {
      if config.lightPattern == "rainbow" {
        PlayRainbow(dev);
      } else if config.lightPattern == "pulse" {
        PlayPulse(dev);
      } else {
        dev.Blink(10, 100);
      }
    }

    /** execute_trigger_light */
    method TriggerLight(dev: Device, uid: string)
      modifies dev`trace, dev`clock
      ensures dev.trace == old(dev.trace) + Rituals.RunTriggerLight(config, uid, old(dev.State())).effects
      ensures dev.State() == Rituals.RunTriggerLight(config, uid, old(dev.State())).after
    {
      ghost var t0 := dev.trace;
      ShowStatus(dev, "Light show!");
      LightShow(dev);
      Close(dev, "Light show complete", 1000);
      Rituals.FramedPieces(t0, config.labelText, "Light show!", Rituals.LightPattern(config.lightPattern).0,
                           "Light show complete", 1000);
    }

    /** execute_unlock_content */
    method UnlockContent(dev: Device, uid: string)
      modifies dev`trace, dev`store, dev`clock
      ensures dev.trace == old(dev.trace) + Rituals.RunUnlockContent(config, uid, old(dev.State())).effects
      ensures dev.State() == Rituals.RunUnlockContent(config, uid, old(dev.State())).after
    {
      ghost var w0 := dev.State();
      ghost var t0 := dev.trace;
      ShowStatus(dev, "Unlocking content...");
      ghost var t1 := dev.trace;
      dev.SetLed(true);
      dev.BuzzSuccess();
      dev.Sleep(2000);
      dev.SetLed(false);
      var stamp := dev.Millis();
      var record := Rituals.UnlockRecord(uid, config, stamp);
      SaveRecord(dev, "unlock_", record);
      ghost var body := [LedSet(true), ToneSuccess, Delay(2000), LedSet(false), Save(RecordKey("unlock_", stamp), record)];
      assert dev.trace == t1 + body;
      Close(dev, "Content unlocked!", 2000);
      assert dev.trace == t0 + Rituals.RunUnlockContent(config, uid, w0).effects by {
        Rituals.FramedPieces(t0, config.labelText, "Unlocking content...", body, "Content unlocked!", 2000);
      }
    }

    /** The default branch of execute_ritual_behavior. */
    method UnknownBehavior(dev: Device)
      modifies dev`trace, dev`clock
      ensures dev.trace == old(dev.trace) + Rituals.RunUnknown(config, old(dev.State())).effects
      ensures dev.State() == Rituals.RunUnknown(config, old(dev.State())).after
    {
      Close(dev, "Unknown behavior", 1000);
      assert Rituals.StatusScreen(config.labelText, "Unknown behavior") + [] == Rituals.StatusScreen(config.labelText, "Unknown behavior");
    }

    /** execute_ritual_behavior: the handler of the configured behaviour; the rest take the default branch. */
    method ExecuteRitual(dev: Device, uid: string)
      modifies dev`trace, dev`store, dev`clock
      ensures dev.trace == old(dev.trace) + Rituals.Dispatch(config, uid, old(dev.State())).effects
      ensures dev.State() == Rituals.Dispatch(config, uid, old(dev.State())).after
    {
      match config.behavior
      case SaveMoment => SaveMoment(dev, uid);
      case SendTip => SendTip(dev, uid);
      case VoteA => Vote(dev, uid, true);
      case VoteB => Vote(dev, uid, false);
      case IncrementCounter => IncrementCounter(dev, uid);
      case TriggerLight => TriggerLight(dev, uid);
      case UnlockContent => UnlockContent(dev, uid);
      case _ => UnknownBehavior(dev);
    }

    /** setup: bring up the three peripherals, install the default ritual, show the ready screen. */
    method Setup(dev: Device)
      modifies this`config, this`initialized, dev`trace
      ensures config == Rituals.DEFAULT_CONFIG && initialized
      ensures dev.trace == old(dev.trace) + [DisplayInit, NfcInit, TouchInit] + Rituals.ReadyScreen(Rituals.DEFAULT_CONFIG.labelText)
    {
      dev.Init(DisplayInit);
      dev.Init(NfcInit);
      dev.Init(TouchInit);
      config := Rituals.DEFAULT_CONFIG;
      initialized := true;
      ShowReady(dev);
    }

    /**
     * set_ritual_config: replace every field but the sound file, the behaviour
     * taken from its integer code; redraw the ready screen once setup has run.
     */
    method SetRitualConfig(dev: Device, nodeId: string, labelText: string, behavior: int, tipAmount: string,
                           voteOption: string, counterName: string, lightPattern: string)
      modifies this`config, dev`trace
      ensures config == Rituals.RitualConfig(nodeId, labelText, Rituals.FromCode(behavior), tipAmount, voteOption,
                                             counterName, lightPattern, old(config).soundFile)
      ensures dev.trace == old(dev.trace) + (if initialized then Rituals.ReadyScreen(labelText) else [])
    {
      config := config.(nodeId := nodeId, labelText := labelText, behavior := Rituals.FromCode(behavior),
                        tipAmount := tipAmount, voteOption := voteOption, counterName := counterName,
                        lightPattern := lightPattern);
      if initialized {
        ShowReady(dev);
      }
    }

    /** show_menu */
    method ShowMenu(dev: Device)
      modifies dev`trace
      ensures dev.trace == old(dev.trace) + Menu.MenuScreen()
    {
      dev.Clear();
      dev.Draw(10, 10, "MELD Node Menu", 2);
      dev.Draw(10, 50, "1. View Stats", 1);
      dev.Draw(10, 70, "2. Clear Data", 1);
      dev.Draw(10, 90, "3. Test NFC", 1);
      dev.Draw(10, 110, "4. Node Info", 1);
      dev.Draw(10, 250, "Touch to exit", 1);
      dev.Update(true);
    }

    /**
     * The wait for a touch-down used by the menu and by the Node Info screen:
     * poll, and sleep 10 ms after every poll that brings no touch-down. The
     * wait ends without one when the touch input runs out.
     */
    method WaitForTap(dev: Device) returns (found: Option<TouchEvent>)
      modifies dev`trace, dev`clock, dev`touches
      ensures var tap := AwaitTap(old(dev.touches));
              && found == tap.found && dev.touches == tap.rest
              && dev.trace == old(dev.trace) + Ticks(tap.sleeps) && dev.clock == old(dev.clock) + 10 * tap.sleeps
    {
      ghost var goal := AwaitTap(dev.touches);
      ghost var t0, c0 := dev.trace, dev.clock;
      ghost var sleeps := 0;
      found := None;
      var polling := true;
      while polling
        invariant polling ==> found.None? && AwaitTap(dev.touches).(sleeps := sleeps + AwaitTap(dev.touches).sleeps) == goal
        invariant !polling ==> found == goal.found && dev.touches == goal.rest && sleeps == goal.sleeps
        invariant dev.trace == t0 + Ticks(sleeps) && dev.clock == c0 + 10 * sleeps
        decreases |dev.touches| + (if polling then 1 else 0)
      {
        if dev.touches == [] {
          polling := false;
        } else {
          var e := dev.TouchRead();
          if IsDown(e) {
            found := e;
            polling := false;
          } else {
            dev.Sleep(10);
            TicksSnoc(sleeps);
            sleeps := sleeps + 1;
          }
        }
      }
    }

    /** The Node Info selection: show the node's identity until a touch-down, then the ready screen. */
    method NodeInfo(dev: Device)
      modifies dev`trace, dev`clock, dev`touches
      ensures var tap := AwaitTap(old(dev.touches));
              && dev.trace == old(dev.trace) + Menu.NodeInfoScreen(config) + Ticks(tap.sleeps) + Rituals.ReadyScreen(config.labelText)
              && dev.clock == old(dev.clock) + 10 * tap.sleeps && dev.touches == tap.rest
    {
      dev.Clear();
      dev.Draw(10, 10, "Node Information", 2);
      dev.Draw(10, 50, "ID:", 1);
      dev.Draw(40, 50, config.nodeId, 1);
      dev.Draw(10, 70, "Label:", 1);
      dev.Draw(60, 70, config.labelText, 1);
      dev.Draw(10, 250, "Touch to continue", 1);
      dev.Update(true);
      var touch := WaitForTap(dev);
      ShowReady(dev);
    }

    /** handle_touch_menu: act on a menu touch at height y; x plays no part. */
    method HandleTouchMenu(dev: Device, x: u16, y: u16)
      modifies dev`trace, dev`clock, dev`touches
      ensures dev.trace == old(dev.trace) + Menu.Selection(config, y as int, old(dev.State())).effects
      ensures dev.State() == Menu.Selection(config, y as int, old(dev.State())).after
      ensures dev.clock >= old(dev.clock)
    {
      if 50 <= y < 70 {
        Close(dev, "Feature coming soon", 1000);
      } else if 70 <= y < 90 {
        Close(dev, "Data cleared", 1000);
      } else if 90 <= y < 110 {
        Close(dev, "Tap NFC tag to test", 3000);
      } else if 110 <= y < 130 {
        NodeInfo(dev);
      } else {
        ShowReady(dev);
      }
    }

    /**
     * The long-press wait of loop(): while still touching and less than
     * 1000 ms have passed since `start`, sleep 10 ms and poll for a touch-up.
     */
    method HoldWait(dev: Device, start: nat) returns (held: bool)
      requires start <= dev.clock
      modifies dev`trace, dev`clock, dev`touches
      ensures var r := AwaitRelease(start, old(dev.clock), old(dev.touches));
              && held == r.held && dev.clock == r.clock && dev.touches == r.rest
              && dev.trace == old(dev.trace) + Ticks(r.polls)
    {
      ghost var goal := AwaitRelease(start, dev.clock, dev.touches);
      ghost var t0 := dev.trace;
      ghost var polls := 0;
      held := true;
      var now := dev.Millis();
      while held && now - start < 1000
        invariant start <= dev.clock && now == dev.clock
        invariant held ==> AwaitRelease(start, dev.clock, dev.touches).(polls := polls + AwaitRelease(start, dev.clock, dev.touches).polls) == goal
        invariant !held ==> !goal.held && dev.clock == goal.clock && dev.touches == goal.rest && polls == goal.polls
        invariant dev.trace == t0 + Ticks(polls)
        decreases start + 1000 - dev.clock
      {
        dev.Sleep(10);
        TicksSnoc(polls);
        polls := polls + 1;
        var e := dev.TouchRead();
        if IsUp(e) {
          held := false;
        }
        now := dev.Millis();
      }
    }

    /**
     * The NFC half of loop(): when more than 100 ms have passed since the last
     * poll, read the tag; dispatch its UID string if it differs from last_uid;
     * clear last_uid when the field is empty.
     */
    method NfcPhase(dev: Device, now: nat)
      modifies this`lastNfcCheck, this`lastUid, dev`trace, dev`store, dev`clock
      ensures Memory() == Acquisition.NfcPhase(config, old(Memory()), now, dev.tag, old(dev.State())).0
      ensures dev.trace == old(dev.trace) + Acquisition.NfcPhase(config, old(Memory()), now, dev.tag, old(dev.State())).1.effects
      ensures dev.State() == Acquisition.NfcPhase(config, old(Memory()), now, dev.tag, old(dev.State())).1.after
      ensures lastTouchTime == old(lastTouchTime)
    {
      if now - lastNfcCheck > 100 {
        lastNfcCheck := now;
        var present := dev.TagPresent();
        if present {
          var uid := dev.GetUid();
          if |uid| > 0 {
            var buffer := new char[16];
            UidString.UidToString(uid, buffer);
            var uidText := buffer[..2 * |uid|];
            if uidText != lastUid {
              lastUid := uidText;
              ExecuteRitual(dev, uidText);
            }
          }
        } else {
          lastUid := "";
        }
      }
    }

    /** The long-press branch of loop(): show the menu and act on the next touch-down. */
    method MenuSession(dev: Device)
      modifies dev`trace, dev`clock, dev`touches
      ensures dev.trace == old(dev.trace) + Acquisition.MenuSession(config, old(dev.State())).effects
      ensures dev.State() == Acquisition.MenuSession(config, old(dev.State())).after
      ensures dev.clock >= old(dev.clock)
    {
      ghost var t0, w0 := dev.trace, dev.State();
      ghost var tap := AwaitTap(w0.touches);
      ShowMenu(dev);
      var selection := WaitForTap(dev);
      ghost var waited := Run(Menu.MenuScreen() + Ticks(tap.sleeps),
                              w0.(clock := w0.clock + 10 * tap.sleeps, touches := tap.rest));
      Associative(t0, Menu.MenuScreen(), Ticks(tap.sleeps));
      if selection.Some? {
        ghost var t1 := dev.trace;
        HandleTouchMenu(dev, selection.value.x, selection.value.y);
        ghost var chosen := Menu.Selection(config, selection.value.y as int, waited.after);
        assert dev.trace == t0 + waited.effects + chosen.effects;
        Associative(t0, waited.effects, chosen.effects);
      }
    }

    /**
     * The touch half of loop(): read one event; a touch-down more than 500 ms
     * after the last accepted one is accepted, and a hold through the window
     * opened at `start` shows the menu and acts on the next touch-down.
     */
    method TouchPhase(dev: Device, now: nat, start: nat)
      requires start <= dev.clock
      modifies this`lastTouchTime, dev`trace, dev`clock, dev`touches
      ensures lastTouchTime == Acquisition.TouchPhase(config, old(lastTouchTime), now, start, old(dev.State())).0
      ensures dev.trace == old(dev.trace) + Acquisition.TouchPhase(config, old(lastTouchTime), now, start, old(dev.State())).1.effects
      ensures dev.State() == Acquisition.TouchPhase(config, old(lastTouchTime), now, start, old(dev.State())).1.after
      ensures dev.clock >= old(dev.clock)
    {
      ghost var t0, w0 := dev.trace, dev.State();
      var touch := dev.TouchRead();
      if IsDown(touch) && now - lastTouchTime > 500 {
        lastTouchTime := now;
        ghost var w1 := dev.State();
        ghost var hold := AwaitRelease(start, w0.clock, w1.touches);
        var held := HoldWait(dev, start);
        ghost var waited := Run(Ticks(hold.polls), w1.(clock := hold.clock, touches := hold.rest));
        assert dev.trace == t0 + waited.effects && dev.State() == waited.after;
        if held {
          MenuSession(dev);
          Associative(t0, waited.effects, Acquisition.MenuSession(config, waited.after).effects);
        }
      }
    }

    /**
     * One pass of loop(), with the long-press window opened when the
     * touch-down is read. The remembered times stay behind the clock.
     */
    method Loop(dev: Device)
      requires Synced(dev)
      modifies this`lastNfcCheck, this`lastUid, this`lastTouchTime, dev`trace, dev`store, dev`clock, dev`touches
      ensures Synced(dev)
      ensures Memory() == Acquisition.Cycle(config, old(Memory()), dev.tag, old(dev.State())).0
      ensures dev.trace == old(dev.trace) + Acquisition.Cycle(config, old(Memory()), dev.tag, old(dev.State())).1.effects
      ensures dev.State() == Acquisition.Cycle(config, old(Memory()), dev.tag, old(dev.State())).1.after
    {
      ghost var t0, w0, m0 := dev.trace, dev.State(), Memory();
      var now := dev.Millis();
      NfcPhase(dev, now);
      ghost var nfc := Acquisition.NfcPhase(config, m0, now, dev.tag, w0);
      Acquisition.NfcPhaseAdvances(config, m0, now, dev.tag, w0);
      var start := dev.Millis();
      TouchPhase(dev, now, start);
      ghost var touch := Acquisition.TouchPhase(config, nfc.0.lastTouchTime, now, start, nfc.1.after);
      Associative(t0, nfc.1.effects, touch.1.effects);
      dev.Sleep(10);
      Associative(t0, nfc.1.effects + touch.1.effects, [Delay(10)]);
    }

    /**
     * One pass of loop() as the firmware has it: the long-press window is
     * measured from `now`, read before the NFC phase.
     */
    method LoopAsWritten(dev: Device)
      requires Synced(dev)
      modifies this`lastNfcCheck, this`lastUid, this`lastTouchTime, dev`trace, dev`store, dev`clock, dev`touches
      ensures Synced(dev)
      ensures Memory() == Acquisition.CycleAsWritten(config, old(Memory()), dev.tag, old(dev.State())).0
      ensures dev.trace == old(dev.trace) + Acquisition.CycleAsWritten(config, old(Memory()), dev.tag, old(dev.State())).1.effects
      ensures dev.State() == Acquisition.CycleAsWritten(config, old(Memory()), dev.tag, old(dev.State())).1.after
    {
      ghost var t0, w0, m0 := dev.trace, dev.State(), Memory();
      var now := dev.Millis();
      NfcPhase(dev, now);
      ghost var nfc := Acquisition.NfcPhase(config, m0, now, dev.tag, w0);
      Acquisition.NfcPhaseAdvances(config, m0, now, dev.tag, w0);
      TouchPhase(dev, now, now);
      ghost var touch := Acquisition.TouchPhase(config, nfc.0.lastTouchTime, now, now, nfc.1.after);
      Associative(t0, nfc.1.effects, touch.1.effects);
      dev.Sleep(10);
      Associative(t0, nfc.1.effects + touch.1.effects, [Delay(10)]);
    }
  }
}