/**
 * The ritual configuration and the dispatch engine of src/fw/main.cpp: which
 * behaviour a tag activation runs, and, for each behaviour, the exact
 * sequence of HAL calls it makes, the record it persists and the time it
 * takes. Each behaviour is a function from the device state before the
 * activation to a Run; the Node class in the Firmware module performs the
 * same calls on a Device and is proved to match these functions.
 */
module Rituals {
  import opened Hal
  import opened Text
  import Counter

  /** ritual_behavior_t, plus the values outside the enumeration that the configurator can store. */
  datatype Behavior =
    | SaveMoment
    | SendTip
    | VoteA
    | VoteB
    | UnlockContent
    | TriggerLight
    | PlaySound
    | IncrementCounter
    | Custom
    | Unrecognized(code: int)

  /** The enumeration value of a behaviour. */
  function Code(b: Behavior): int {
    match b
    case SaveMoment => 0
    case SendTip => 1
    case VoteA => 2
    case VoteB => 3
    case UnlockContent => 4
    case TriggerLight => 5
    case PlaySound => 6
    case IncrementCounter => 7
    case Custom => 8
    case Unrecognized(c) => c
  }

  /** The cast `(ritual_behavior_t)behavior` of the configurator. */
  function FromCode(code: int): (b: Behavior)
    ensures b.Unrecognized? <==> !(0 <= code <= 8)
    ensures Code(b) == code
  {
    if code == 0 then SaveMoment
    else if code == 1 then SendTip
    else if code == 2 then VoteA
    else if code == 3 then VoteB
    else if code == 4 then UnlockContent
    else if code == 5 then TriggerLight
    else if code == 6 then PlaySound
    else if code == 7 then IncrementCounter
    else if code == 8 then Custom
    else Unrecognized(code)
  }

  /** Every behaviour the configurator can produce is recovered from its code. */
  lemma FromCodeOfCode(b: Behavior)
    requires b.Unrecognized? ==> !(0 <= b.code <= 8)
    ensures FromCode(Code(b)) == b
  {
  }

  /**
   * ritual_config_t. The tip amount is a float in the source; it is kept as
   * its "%.2f" rendering, which is all the firmware does with it.
   */
  datatype RitualConfig = RitualConfig(
    nodeId: string,
    labelText: string,
    behavior: Behavior,
    tipAmount: string,
    voteOption: string,
    counterName: string,
    lightPattern: string,
    soundFile: string)

  /** The configuration setup() installs. */
  const DEFAULT_CONFIG: RitualConfig :=
    RitualConfig("default-node", "Default Ritual", SaveMoment, "5.00", "Option A",
                 "default_counter", "rainbow", "beep.wav")

  /** show_status_message */
  function StatusScreen(title: string, message: string): seq<Effect> {
    [DisplayClear,
     DrawText(10, 10, "MELD Node", 2),
     DrawText(10, 50, title, 1),
     DrawText(10, 80, "Status:", 1),
     DrawText(10, 100, message, 1),
     DisplayUpdate(true)]
  }

  /** show_ready_screen */
  function ReadyScreen(title: string): seq<Effect> {
    [DisplayClear,
     DrawText(50, 50, "MELD Node", 3),
     DrawText(30, 120, title, 2),
     DrawText(10, 180, "Tap NFC tag to activate", 1),
     DrawText(10, 200, "Touch screen for menu", 1),
     DisplayUpdate(false)]
  }

  /**
   * The shape every activation shares: an opening status message, the
   * behaviour's own effects, a dwell, then the ready screen again.
   */
  function Framed(title: string, opening: string, body: seq<Effect>, dwell: nat): seq<Effect> {
    StatusScreen(title, opening) + body + [Delay(dwell)] + ReadyScreen(title)
  }

  // ----- per-behaviour runs -----

  function MomentRecord(uid: string, cfg: RitualConfig, t: nat): Blob {
    Object([("uid", Str(uid)), ("node", Str(cfg.nodeId)), ("timestamp", Num(t)), ("verified", Bool(true))])
  }

  /** execute_save_moment: both system_millis() reads see the clock before any delay. */
  function RunSaveMoment(cfg: RitualConfig, uid: string, w: World): Run {
    var t := w.clock;
    var key := RecordKey("moment_", t);
    var rec := MomentRecord(uid, cfg, t);
    Run(Framed(cfg.labelText, "Saving moment...",
               [LedBlink(3, 200), ToneSuccess, Save(key, rec)] + StatusScreen(cfg.labelText, "Moment saved!"),
               2000),
        World(w.store[key := rec], t + 2000, w.touches))
  }

  function TipRecord(uid: string, cfg: RitualConfig, t: nat): Blob {
    Object([("uid", Str(uid)), ("amount", Amount(cfg.tipAmount)), ("node", Str(cfg.nodeId)), ("timestamp", Num(t))])
  }

  /** execute_send_tip: the record is stamped after the two 120 ms gaps of the tip sound. */
  function RunSendTip(cfg: RitualConfig, uid: string, w: World): Run {
    var t := w.clock + 240;
    var key := RecordKey("tip_", t);
    var rec := TipRecord(uid, cfg, t);
    Run(Framed(cfg.labelText, "Sending tip...",
               [LedBlink(5, 100), Tone(800, 100), Delay(120), Tone(1000, 100), Delay(120), Tone(1200, 150),
                Save(key, rec)]
               + StatusScreen(cfg.labelText, "Tip sent: $" + cfg.tipAmount),
               2000),
        World(w.store[key := rec], t + 2000, w.touches))
  }

  function OptionName(optionA: bool): string {
    if optionA then "A" else "B"
  }

  function VoteRecord(uid: string, optionA: bool, cfg: RitualConfig, t: nat): Blob {
    Object([("uid", Str(uid)), ("option", Str(OptionName(optionA))), ("vote_option", Str(cfg.voteOption)),
            ("node", Str(cfg.nodeId)), ("timestamp", Num(t))])
  }

  /** The feedback of a vote: a long tone for A, a falling two-tone for B. */
  function VoteFeedback(optionA: bool): seq<Effect> {
    if optionA then [LedSet(true), Tone(1000, 500), LedSet(false)]
    else [LedBlink(2, 250), Tone(800, 300), Delay(100), Tone(600, 300)]
  }

  /** execute_vote */
  function RunVote(cfg: RitualConfig, uid: string, optionA: bool, w: World): Run {
    var opt := OptionName(optionA);
    var t := w.clock + (if optionA then 0 else 100);
    var key := RecordKey("vote_", t);
    var rec := VoteRecord(uid, optionA, cfg, t);
    Run(Framed(cfg.labelText, "Voting " + opt + "...",
               VoteFeedback(optionA) + [Save(key, rec)] + StatusScreen(cfg.labelText, "Vote " + opt + " recorded"),
               2000),
        World(w.store[key := rec], t + 2000, w.touches))
  }

  /** execute_increment_counter */
  function RunIncrementCounter(cfg: RitualConfig, uid: string, w: World): Run {
    var n := Counter.Next(Counter.StoredCount(w.store, cfg.counterName));
    Run(Framed(cfg.labelText, "Updating counter...",
               [Load(cfg.counterName), Save(cfg.counterName, Raw(Counter.Encode(n))),
                LedBlink(Counter.BlinkCount(n), 150), Tone(Counter.ToneHz(n), 200)]
               + StatusScreen(cfg.labelText, cfg.counterName + ": " + Dec(n)),
               2000),
        World(Counter.Increment(w.store, cfg.counterName), w.clock + 2000, w.touches))
  }

  /** One cycle of the "rainbow" pattern: LED on with a rising tone, then off. */
  function RainbowCycle(i: nat): seq<Effect>
    requires i < 10
  {
    [LedSet(true), Tone(500 + i * 100, 100), Delay(100), LedSet(false), Delay(50)]
  }

  /** The first n cycles of the rainbow pattern. */
  function Rainbow(n: nat): seq<Effect>
    requires n <= 10
  {
    if n == 0 then [] else Rainbow(n - 1) + RainbowCycle(n - 1)
  }

  function PulseCycle(): seq<Effect> {
    [LedSet(true), Delay(50), LedSet(false), Delay(50)]
  }

  function Pulse(n: nat): seq<Effect> {
    if n == 0 then [] else Pulse(n - 1) + PulseCycle()
  }

  /** The light effect chosen by light_pattern, and how long it takes. */
  function LightPattern(pattern: string): (seq<Effect>, nat) {
    if pattern == "rainbow" then (Rainbow(10), 1500)
    else if pattern == "pulse" then (Pulse(5), 500)
    else ([LedBlink(10, 100)], 0)
  }

  /** execute_trigger_light */
  function RunTriggerLight(cfg: RitualConfig, uid: string, w: World): Run {
    var (pattern, duration) := LightPattern(cfg.lightPattern);
    Run(Framed(cfg.labelText, "Light show!", pattern + StatusScreen(cfg.labelText, "Light show complete"), 1000),
        World(w.store, w.clock + duration + 1000, w.touches))
  }

  function UnlockRecord(uid: string, cfg: RitualConfig, t: nat): Blob {
    Object([("uid", Str(uid)), ("content_id", Str(cfg.nodeId)), ("node", Str(cfg.nodeId)), ("timestamp", Num(t))])
  }

  /** execute_unlock_content: the record is stamped after the 2000 ms unlock hold. */
  function RunUnlockContent(cfg: RitualConfig, uid: string, w: World): Run {
    var t := w.clock + 2000;
    var key := RecordKey("unlock_", t);
    var rec := UnlockRecord(uid, cfg, t);
    Run(Framed(cfg.labelText, "Unlocking content...",
               [LedSet(true), ToneSuccess, Delay(2000), LedSet(false), Save(key, rec)]
               + StatusScreen(cfg.labelText, "Content unlocked!"),
               2000),
        World(w.store[key := rec], t + 2000, w.touches))
  }

  /** The default branch of the dispatch. */
  function RunUnknown(cfg: RitualConfig, w: World): Run {
    Run(Framed(cfg.labelText, "Unknown behavior", [], 1000), World(w.store, w.clock + 1000, w.touches))
  }

  /** execute_ritual_behavior: a total case split over the behaviour. */
  function Dispatch(cfg: RitualConfig, uid: string, w: World): Run {
    match cfg.behavior
    case SaveMoment => RunSaveMoment(cfg, uid, w)
    case SendTip => RunSendTip(cfg, uid, w)
    case VoteA => RunVote(cfg, uid, true, w)
    case VoteB => RunVote(cfg, uid, false, w)
    case IncrementCounter => RunIncrementCounter(cfg, uid, w)
    case TriggerLight => RunTriggerLight(cfg, uid, w)
    case UnlockContent => RunUnlockContent(cfg, uid, w)
    case PlaySound => RunUnknown(cfg, w)
    case Custom => RunUnknown(cfg, w)
    case Unrecognized(_) => RunUnknown(cfg, w)
  }

  // ----- properties of the dispatch -----

  /** n activations of the same configuration for the same tag, one after another from w. */
  function Activations(cfg: RitualConfig, uid: string, w: World, n: nat): World
    decreases n
  {
    if n == 0 then w else Dispatch(cfg, uid, Activations(cfg, uid, w, n - 1)).after
  }

  /** One activation of the counter behaviour increments its counter and touches no other key. */
  lemma CounterStep(cfg: RitualConfig, uid: string, w: World)
    requires cfg.behavior.IncrementCounter?
    ensures Dispatch(cfg, uid, w).after.store == Counter.Increment(w.store, cfg.counterName)
  {
  }

  /** N activations of the counter behaviour, starting with no counter stored, leave N mod 2^32 stored. */
  lemma CounterActivations(cfg: RitualConfig, uid: string, w: World, n: nat)
    requires cfg.behavior.IncrementCounter? && cfg.counterName !in w.store
    ensures Counter.StoredCount(Activations(cfg, uid, w, n).store, cfg.counterName) == n % Counter.U32
  {
    var k := 0;
    while k < n
      invariant k <= n
      invariant Counter.StoredCount(Activations(cfg, uid, w, k).store, cfg.counterName) == k % Counter.U32
    {
      var before := Activations(cfg, uid, w, k);
      CounterStep(cfg, uid, before);
      Counter.StoredCountIncrement(before.store, cfg.counterName);
      Counter.NextOfResidue(k);
      k := k + 1;
    }
  }

  /** The behaviours execute_ritual_behavior has a handler for; the rest take the default branch. */
  predicate Handled(b: Behavior) {
    !(b.PlaySound? || b.Custom? || b.Unrecognized?)
  }

  /** The status message an activation opens with. */
  function OpeningMessage(b: Behavior): string {
    match b
    case SaveMoment => "Saving moment..."
    case SendTip => "Sending tip..."
    case VoteA => "Voting " + OptionName(true) + "..."
    case VoteB => "Voting " + OptionName(false) + "..."
    case IncrementCounter => "Updating counter..."
    case TriggerLight => "Light show!"
    case UnlockContent => "Unlocking content..."
    case _ => "Unknown behavior"
  }

  /** How long the last status message stays up before the ready screen returns. */
  function Dwell(b: Behavior): nat {
    if b.TriggerLight? || !Handled(b) then 1000 else 2000
  }

  /** A trace that opens with a status screen and closes with the dwell and the ready screen. */
  predicate FramedBy(e: seq<Effect>, title: string, opening: string, dwell: nat) {
    && |e| >= 13
    && e[..6] == StatusScreen(title, opening)
    && e[|e| - 7] == Delay(dwell)
    && e[|e| - 6..] == ReadyScreen(title)
  }

  lemma FramedShape(title: string, opening: string, body: seq<Effect>, dwell: nat)
    ensures var e := Framed(title, opening, body, dwell);
            && |e| == 13 + |body|
            && FramedBy(e, title, opening, dwell)
            && e[6..|e| - 7] == body
  {
    var e := Framed(title, opening, body, dwell);
    assert e == StatusScreen(title, opening) + (body + ([Delay(dwell)] + ReadyScreen(title)));
  }

  /** A trace made of the pieces of a framed activation, appended one after another. */
  lemma FramedPieces(t0: seq<Effect>, title: string, opening: string, feedback: seq<Effect>, closing: string, dwell: nat)
    ensures t0 + StatusScreen(title, opening) + feedback + StatusScreen(title, closing) + [Delay(dwell)] + ReadyScreen(title)
         == t0 + Framed(title, opening, feedback + StatusScreen(title, closing), dwell)
  {
  }

  /** Every activation leaves the touch input alone and takes at least its dwell. */
  lemma DispatchTiming(cfg: RitualConfig, uid: string, w: World)
    ensures var r := Dispatch(cfg, uid, w);
            && r.after.touches == w.touches
            && r.after.clock >= w.clock + Dwell(cfg.behavior)
            && r.effects != []
  {
    DispatchFrame(cfg, uid, w);
  }

  /**
   * Every activation, whatever the behaviour, opens with the behaviour's status
   * message and ends with the dwell and the ready screen. Only handled
   * behaviours do anything in between.
   */
  lemma DispatchFrame(cfg: RitualConfig, uid: string, w: World)
    ensures var e := Dispatch(cfg, uid, w).effects;
            && FramedBy(e, cfg.labelText, OpeningMessage(cfg.behavior), Dwell(cfg.behavior))
            && (!Handled(cfg.behavior) <==> |e| == 13)
  {
    match cfg.behavior
    case SaveMoment => RecordingFrame(cfg, uid, w);
    case SendTip => RecordingFrame(cfg, uid, w);
    case UnlockContent => RecordingFrame(cfg, uid, w);
    case VoteA => VotingFrame(cfg, uid, w);
    case VoteB => VotingFrame(cfg, uid, w);
    case _ => OtherFrame(cfg, uid, w);
  }

  /** DispatchFrame for the behaviours that stamp a record with a fixed message. */
  lemma RecordingFrame(cfg: RitualConfig, uid: string, w: World)
    requires cfg.behavior.SaveMoment? || cfg.behavior.SendTip? || cfg.behavior.UnlockContent?
    ensures var e := Dispatch(cfg, uid, w).effects;
            && FramedBy(e, cfg.labelText, OpeningMessage(cfg.behavior), Dwell(cfg.behavior))
            && (!Handled(cfg.behavior) <==> |e| == 13)
  {
    var title, opening, dwell := cfg.labelText, OpeningMessage(cfg.behavior), Dwell(cfg.behavior);
    match cfg.behavior
    case SaveMoment =>
      var key := RecordKey("moment_", w.clock);
      var body := [LedBlink(3, 200), ToneSuccess, Save(key, MomentRecord(uid, cfg, w.clock))] + StatusScreen(title, "Moment saved!");
      FramedShape(title, opening, body, dwell);
    case SendTip =>
      var t := w.clock + 240;
      var body := [LedBlink(5, 100), Tone(800, 100), Delay(120), Tone(1000, 100), Delay(120), Tone(1200, 150),
                   Save(RecordKey("tip_", t), TipRecord(uid, cfg, t))]
                  + StatusScreen(title, "Tip sent: $" + cfg.tipAmount);
      FramedShape(title, opening, body, dwell);
    case UnlockContent =>
      var t := w.clock + 2000;
      var body := [LedSet(true), ToneSuccess, Delay(2000), LedSet(false), Save(RecordKey("unlock_", t), UnlockRecord(uid, cfg, t))]
                  + StatusScreen(title, "Content unlocked!");
      FramedShape(title, opening, body, dwell);
  }

  /** DispatchFrame for the two votes. */
  lemma VotingFrame(cfg: RitualConfig, uid: string, w: World)
    requires cfg.behavior.VoteA? || cfg.behavior.VoteB?
    ensures var e := Dispatch(cfg, uid, w).effects;
            && FramedBy(e, cfg.labelText, OpeningMessage(cfg.behavior), Dwell(cfg.behavior))
            && (!Handled(cfg.behavior) <==> |e| == 13)
  {
    var optionA := cfg.behavior.VoteA?;
    var t := w.clock + (if optionA then 0 else 100);
    var body := VoteFeedback(optionA) + [Save(RecordKey("vote_", t), VoteRecord(uid, optionA, cfg, t))]
                + StatusScreen(cfg.labelText, "Vote " + OptionName(optionA) + " recorded");
    FramedShape(cfg.labelText, OpeningMessage(cfg.behavior), body, Dwell(cfg.behavior));
  }

  /** DispatchFrame for the counter, the light show and the default branch. */
  lemma OtherFrame(cfg: RitualConfig, uid: string, w: World)
    requires !(cfg.behavior.SaveMoment? || cfg.behavior.SendTip? || cfg.behavior.UnlockContent?)
    requires !(cfg.behavior.VoteA? || cfg.behavior.VoteB?)
    ensures var e := Dispatch(cfg, uid, w).effects;
            && FramedBy(e, cfg.labelText, OpeningMessage(cfg.behavior), Dwell(cfg.behavior))
            && (!Handled(cfg.behavior) <==> |e| == 13)
  {
    var title, opening, dwell := cfg.labelText, OpeningMessage(cfg.behavior), Dwell(cfg.behavior);
    match cfg.behavior
    case IncrementCounter =>
      var n := Counter.Next(Counter.StoredCount(w.store, cfg.counterName));
      var body := [Load(cfg.counterName), Save(cfg.counterName, Raw(Counter.Encode(n))),
                   LedBlink(Counter.BlinkCount(n), 150), Tone(Counter.ToneHz(n), 200)]
                  + StatusScreen(title, cfg.counterName + ": " + Dec(n));
      FramedShape(title, opening, body, dwell);
    case TriggerLight =>
      var body := LightPattern(cfg.lightPattern).0 + StatusScreen(title, "Light show complete");
      FramedShape(title, opening, body, dwell);
    case _ =>
      FramedShape(title, opening, [], dwell);
  }

  /** The key prefix of the record a behaviour persists, if it persists one. */
  function RecordPrefix(b: Behavior): Option<string> {
    match b
    case SaveMoment => Some("moment_")
    case SendTip => Some("tip_")
    case VoteA => Some("vote_")
    case VoteB => Some("vote_")
    case UnlockContent => Some("unlock_")
    case _ => None
  }

  /** The timestamp in that record: the clock when the handler reads system_millis() for it. */
  function RecordTime(b: Behavior, w: World): nat {
    w.clock + match b
              case SendTip => 240
              case VoteB => 100
              case UnlockContent => 2000
              case _ => 0
  }

  /**
   * What an activation does to storage: a recording behaviour adds exactly one
   * record, under "<prefix><timestamp>", stamped while the activation runs and
   * naming the tag and the node; the counter behaviour increments its counter;
   * every other behaviour leaves storage alone.
   */
  lemma DispatchStore(cfg: RitualConfig, uid: string, w: World)
    ensures var r := Dispatch(cfg, uid, w);
            var b := cfg.behavior;
            && (RecordPrefix(b).Some? ==>
                  var t := RecordTime(b, w);
                  var k := RecordKey(RecordPrefix(b).value, t);
                  && w.clock <= t < r.after.clock
                  && k in r.after.store
                  && r.after.store == w.store[k := r.after.store[k]]
                  && r.after.store[k].Object?
                  && ("uid", Str(uid)) in r.after.store[k].fields
                  && ("node", Str(cfg.nodeId)) in r.after.store[k].fields
                  && ("timestamp", Num(t)) in r.after.store[k].fields)
            && (b.IncrementCounter? ==> r.after.store == Counter.Increment(w.store, cfg.counterName))
            && (RecordPrefix(b).None? && !b.IncrementCounter? ==> r.after.store == w.store)
  {
    match cfg.behavior
    case SaveMoment => StampedStore(cfg, uid, w);
    case SendTip => StampedStore(cfg, uid, w);
    case UnlockContent => StampedStore(cfg, uid, w);
    case VoteA => VoteStore(cfg, uid, w);
    case VoteB => VoteStore(cfg, uid, w);
    case _ =>
  }

  /** DispatchStore for the moment, the tip and the unlock. */
  lemma StampedStore(cfg: RitualConfig, uid: string, w: World)
    requires cfg.behavior.SaveMoment? || cfg.behavior.SendTip? || cfg.behavior.UnlockContent?
    ensures var r := Dispatch(cfg, uid, w);
            var b := cfg.behavior;
            && (RecordPrefix(b).Some? ==>
                  var t := RecordTime(b, w);
                  var k := RecordKey(RecordPrefix(b).value, t);
                  && w.clock <= t < r.after.clock
                  && k in r.after.store
                  && r.after.store == w.store[k := r.after.store[k]]
                  && r.after.store[k].Object?
                  && ("uid", Str(uid)) in r.after.store[k].fields
                  && ("node", Str(cfg.nodeId)) in r.after.store[k].fields
                  && ("timestamp", Num(t)) in r.after.store[k].fields)
            && (b.IncrementCounter? ==> r.after.store == Counter.Increment(w.store, cfg.counterName))
            && (RecordPrefix(b).None? && !b.IncrementCounter? ==> r.after.store == w.store)
  {
    match cfg.behavior
    case SaveMoment =>
      assert ("uid", Str(uid)) in MomentRecord(uid, cfg, w.clock).fields;
    case SendTip =>
      assert ("uid", Str(uid)) in TipRecord(uid, cfg, w.clock + 240).fields;
    case UnlockContent =>
      assert ("uid", Str(uid)) in UnlockRecord(uid, cfg, w.clock + 2000).fields;
  }

  /** DispatchStore for the two votes. */
  lemma VoteStore(cfg: RitualConfig, uid: string, w: World)
    requires cfg.behavior.VoteA? || cfg.behavior.VoteB?
    ensures var r := Dispatch(cfg, uid, w);
            var b := cfg.behavior;
            && (RecordPrefix(b).Some? ==>
                  var t := RecordTime(b, w);
                  var k := RecordKey(RecordPrefix(b).value, t);
                  && w.clock <= t < r.after.clock
                  && k in r.after.store
                  && r.after.store == w.store[k := r.after.store[k]]
                  && r.after.store[k].Object?
                  && ("uid", Str(uid)) in r.after.store[k].fields
                  && ("node", Str(cfg.nodeId)) in r.after.store[k].fields
                  && ("timestamp", Num(t)) in r.after.store[k].fields)
            && (b.IncrementCounter? ==> r.after.store == Counter.Increment(w.store, cfg.counterName))
            && (RecordPrefix(b).None? && !b.IncrementCounter? ==> r.after.store == w.store)
  {
    var optionA := cfg.behavior.VoteA?;
    assert ("uid", Str(uid)) in VoteRecord(uid, optionA, cfg, RecordTime(cfg.behavior, w)).fields;
  }

  /** The first character of a record key is the first character of its prefix. */
  lemma RecordKeyHead(prefix: string, t: nat)
    requires prefix != []
    ensures RecordKey(prefix, t)[0] == prefix[0]
  {
    assert RecordKey(prefix, t)[..|prefix|] == prefix;
  }

  /**
   * An activation that starts once an earlier one has finished writes its
   * record under a different key, whichever recording behaviours the two run.
   */
  lemma LaterRecordKeyDiffers(cfg1: RitualConfig, uid1: string, w1: World,
                              cfg2: RitualConfig, uid2: string, w2: World)
    requires RecordPrefix(cfg1.behavior).Some? && RecordPrefix(cfg2.behavior).Some?
    requires w2.clock >= Dispatch(cfg1, uid1, w1).after.clock
    ensures RecordKey(RecordPrefix(cfg1.behavior).value, RecordTime(cfg1.behavior, w1))
         != RecordKey(RecordPrefix(cfg2.behavior).value, RecordTime(cfg2.behavior, w2))
  {
    var p1, t1 := RecordPrefix(cfg1.behavior).value, RecordTime(cfg1.behavior, w1);
    var p2, t2 := RecordPrefix(cfg2.behavior).value, RecordTime(cfg2.behavior, w2);
    RecordTimeWithin(cfg1, uid1, w1);
    if p1 == p2 {
      RecordKeyInjective(p1, t1, t2);
    } else {
      PrefixHeadsDiffer(cfg1.behavior, cfg2.behavior);
      RecordKeyHead(p1, t1);
      RecordKeyHead(p2, t2);
    }
  }

  /** A record is stamped before its activation finishes. */
  lemma RecordTimeWithin(cfg: RitualConfig, uid: string, w: World)
    requires RecordPrefix(cfg.behavior).Some?
    ensures w.clock <= RecordTime(cfg.behavior, w) < Dispatch(cfg, uid, w).after.clock
  {
  }

  /** Different record prefixes already differ in their first character. */
  lemma PrefixHeadsDiffer(b1: Behavior, b2: Behavior)
    requires RecordPrefix(b1).Some? && RecordPrefix(b2).Some?
    requires RecordPrefix(b1) != RecordPrefix(b2)
    ensures RecordPrefix(b1).value != [] && RecordPrefix(b2).value != []
    ensures RecordPrefix(b1).value[0] != RecordPrefix(b2).value[0]
  {
  }

  /** Hence a record already in storage survives every later recording activation unchanged. */
  lemma RecordSurvives(cfg1: RitualConfig, uid1: string, w1: World,
                       cfg2: RitualConfig, uid2: string, w2: World)
    requires RecordPrefix(cfg1.behavior).Some? && RecordPrefix(cfg2.behavior).Some?
    requires w2.clock >= Dispatch(cfg1, uid1, w1).after.clock
    requires var k1 := RecordKey(RecordPrefix(cfg1.behavior).value, RecordTime(cfg1.behavior, w1));
             k1 in w2.store
    ensures var k1 := RecordKey(RecordPrefix(cfg1.behavior).value, RecordTime(cfg1.behavior, w1));
            var after := Dispatch(cfg2, uid2, w2).after.store;
            k1 in after && after[k1] == w2.store[k1]
  {
    LaterRecordKeyDiffers(cfg1, uid1, w1, cfg2, uid2, w2);
    DispatchStore(cfg2, uid2, w2);
  }

  /** The rainbow pattern is its cycles in order. */
  lemma {:induction false} RainbowCycles(n: nat)
    requires n <= 10
    ensures |Rainbow(n)| == 5 * n
    ensures forall i :: 0 <= i < n ==> Rainbow(n)[5 * i..5 * i + 5] == RainbowCycle(i)
  {
    if n > 0 {
      RainbowCycles(n - 1);
      var prev := Rainbow(n - 1);
      forall i | 0 <= i < n
        ensures Rainbow(n)[5 * i..5 * i + 5] == RainbowCycle(i)
      {
        if i < n - 1 {
          assert Rainbow(n)[5 * i..5 * i + 5] == prev[5 * i..5 * i + 5];
        } else {
          assert Rainbow(n)[5 * i..5 * i + 5] == Rainbow(n)[|prev|..];
        }
      }
    }
  }

  /** Cycle i of the rainbow sounds 500 + 100 i Hz, so the tones rise. */
  lemma RainbowTones(n: nat)
    requires n <= 10
    ensures |Rainbow(n)| == 5 * n
    ensures forall i :: 0 <= i < n ==> Rainbow(n)[5 * i + 1] == Tone(500 + 100 * i, 100)
  {
    RainbowCycles(n);
    forall i | 0 <= i < n
      ensures Rainbow(n)[5 * i + 1] == Tone(500 + 100 * i, 100)
    {
      assert Rainbow(n)[5 * i + 1] == Rainbow(n)[5 * i..5 * i + 5][1];
    }
  }

  /** The pulse pattern is its cycles in order. */
  lemma {:induction false} PulseCycles(n: nat)
    ensures |Pulse(n)| == 4 * n
    ensures forall i :: 0 <= i < n ==> Pulse(n)[4 * i..4 * i + 4] == PulseCycle()
  {
    if n > 0 {
      PulseCycles(n - 1);
      var prev := Pulse(n - 1);
      forall i | 0 <= i < n
        ensures Pulse(n)[4 * i..4 * i + 4] == PulseCycle()
      {
        if i < n - 1 {
          assert Pulse(n)[4 * i..4 * i + 4] == prev[4 * i..4 * i + 4];
        } else {
          assert Pulse(n)[4 * i..4 * i + 4] == Pulse(n)[|prev|..];
        }
      }
    }
  }

  /** Light-show effects: only the LED, the buzzer and the clock. */
  predicate Ornamental(e: Effect) {
    e.LedSet? || e.LedBlink? || e.Tone? || e.Delay?
  }

  lemma {:induction false} RainbowOrnamental(n: nat)
    requires n <= 10
    ensures forall e :: e in Rainbow(n) ==> Ornamental(e)
  {
    if n > 0 {
      RainbowOrnamental(n - 1);
    }
  }

  lemma {:induction false} PulseOrnamental(n: nat)
    ensures forall e :: e in Pulse(n) ==> Ornamental(e)
  {
    if n > 0 {
      PulseOrnamental(n - 1);
    }
  }

  /** Whatever the pattern, a light show never touches storage or the display. */
  lemma LightShowOrnamental(pattern: string)
    ensures forall e :: e in LightPattern(pattern).0 ==> Ornamental(e)
  {
    RainbowOrnamental(10);
    PulseOrnamental(5);
  }
}
