/**
 * The hardware abstraction contract of the node (src/fw/hal.h): the value
 * types that cross it, the display geometry, and a recording device that
 * realises the documented behaviour of every operation the firmware uses.
 * Every display, LED, buzzer, storage and clock call is one entry of an
 * ordered effect trace; storage is a key -> blob map; the clock is an
 * explicit millisecond counter advanced only by delays.
 */
module Hal {

  datatype Option<+T> = None | Some(value: T)

  type byte = b: int | 0 <= b < 0x100
  type u16 = x: int | 0 <= x < 0x1_0000

  // Display geometry
  const DISPLAY_WIDTH: nat := 296
  const DISPLAY_HEIGHT: nat := 296

  // Capacities of the tag record
  const UID_CAPACITY: nat := 7
  const NDEF_CAPACITY: nat := 512

  // Touch event kinds
  const TOUCH_DOWN: byte := 0
  const TOUCH_MOVE: byte := 1
  const TOUCH_UP: byte := 2

  /** A pixel coordinate the display accepts. */
  predicate OnScreen(x: int, y: int) {
    x < DISPLAY_WIDTH && y < DISPLAY_HEIGHT
  }

  /** Text sizes the display driver renders. */
  predicate ValidTextSize(size: int) {
    1 <= size <= 4
  }

  /** A UID as delivered by the reader: at most seven bytes, its length is the length field. */
  type Uid = s: seq<byte> | |s| <= UID_CAPACITY

  /** The tag record; the sequences carry their own length fields. */
  datatype NfcTag = NfcTag(uid: seq<byte>, ndef: seq<byte>, timestamp: nat)

  predicate ValidTag(t: NfcTag) {
    |t.uid| <= UID_CAPACITY && |t.ndef| <= NDEF_CAPACITY
  }

  datatype TouchEvent = TouchEvent(x: u16, y: u16, kind: byte, timestamp: nat)

  predicate IsDown(e: Option<TouchEvent>) { e.Some? && e.value.kind == TOUCH_DOWN }
  predicate IsUp(e: Option<TouchEvent>) { e.Some? && e.value.kind == TOUCH_UP }

  /** A value written to storage. Firmware records are flat JSON objects whose
      exact text is not modelled: they are kept as their ordered field list. */
  datatype Value = Str(s: string) | Num(n: nat) | Bool(b: bool) | Amount(rendering: string)
  datatype Blob = Raw(bytes: seq<byte>) | Object(fields: seq<(string, Value)>)

  /** One business-visible HAL call. */
  datatype Effect =
    | DisplayInit
    | NfcInit
    | TouchInit
    | DisplayClear
    | DrawText(x: nat, y: nat, text: string, size: nat)
    | DisplayUpdate(partial: bool)
    | LedSet(on: bool)
    | LedBlink(times: int, delayMs: int)
    | Tone(frequency: u16, duration: u16)
    | ToneSuccess
    | Delay(ms: nat)
    | Save(key: string, value: Blob)
    | Load(key: string)

  /** The part of the device state that operations change besides the trace. */
  datatype World = World(store: map<string, Blob>, clock: nat, touches: seq<Option<TouchEvent>>)

  /** What a sequence of HAL calls does: the effects it appends and the state it leaves. */
  datatype Run = Run(effects: seq<Effect>, after: World)

  /**
   * The bytes storage_load can copy out for a key: none when the key is
   * absent, and none either when it holds a record, whose JSON text is not
   * modelled (the firmware would read that text's first bytes).
   */
  function Fetch(store: map<string, Blob>, key: string): seq<byte> {
    if key in store && store[key].Raw? then store[key].bytes else []
  }

  /** The length storage_load reports into a buffer of maxLength bytes. */
  function LoadedLength(store: map<string, Blob>, key: string, maxLength: nat): (n: nat)
    ensures n <= maxLength && n <= |Fetch(store, key)|
    ensures key !in store ==> n == 0
    ensures maxLength > 0 && |Fetch(store, key)| > 0 ==> n > 0
  {
    var b := Fetch(store, key);
    if |b| < maxLength then |b| else maxLength
  }

  /** Same-key save then load observes the saved bytes. */
  lemma LoadAfterSave(store: map<string, Blob>, key: string, bytes: seq<byte>, maxLength: nat)
    ensures var n := LoadedLength(store[key := Raw(bytes)], key, maxLength);
            Fetch(store[key := Raw(bytes)], key)[..n] == bytes[..n]
            && (maxLength >= |bytes| ==> n == |bytes|)
  {
  }

  /**
   * A recording device: the firmware's view of the HAL. Inputs the firmware
   * polls (the tag in the field, the successive results of touch_read) are
   * fields set by whoever drives it; outputs are appended to `trace`.
   */
  class Device {
    var trace: seq<Effect>
    var store: map<string, Blob>
    var clock: nat
    var tag: Option<Uid>
    var touches: seq<Option<TouchEvent>>

    function State(): World
      reads this
    {
      World(store, clock, touches)
    }

    constructor (initialStore: map<string, Blob>, initialClock: nat, initialTag: Option<Uid>,
                 script: seq<Option<TouchEvent>>)
      ensures trace == [] && store == initialStore && clock == initialClock && tag == initialTag && touches == script
    {
      trace, store, clock, tag, touches := [], initialStore, initialClock, initialTag, script;
    }

    method Init(e: Effect)
      requires e == DisplayInit || e == NfcInit || e == TouchInit
      modifies this`trace
      ensures trace == old(trace) + [e]
    {
      trace := trace + [e];
    }

    method Clear()
      modifies this`trace
      ensures trace == old(trace) + [DisplayClear]
    {
      trace := trace + [DisplayClear];
    }

    method Draw(x: nat, y: nat, text: string, size: nat)
      requires ValidTextSize(size)
      modifies this`trace
      ensures trace == old(trace) + [DrawText(x, y, text, size)]
    {
      trace := trace + [DrawText(x, y, text, size)];
    }

    method Update(partial: bool)
      modifies this`trace
      ensures trace == old(trace) + [DisplayUpdate(partial)]
    {
      trace := trace + [DisplayUpdate(partial)];
    }

    /** nfc_tag_present */
    method TagPresent() returns (present: bool)
      ensures present <==> tag.Some?
    {
      present := tag.Some?;
    }

    /** nfc_get_uid: the UID bytes, whose length is the returned length; 0 when no tag. */
    method GetUid() returns (uid: Uid)
      ensures tag.None? ==> |uid| == 0
      ensures tag.Some? ==> uid == tag.value
    {
      uid := if tag.Some? then tag.value else [];
    }

    /** touch_read: a non-blocking poll; None is "no event available". */
    method TouchRead() returns (e: Option<TouchEvent>)
      modifies this`touches
      ensures old(touches) == [] ==> e.None? && touches == []
      ensures old(touches) != [] ==> e == old(touches)[0] && touches == old(touches)[1..]
    {
      if touches == [] {
        e := None;
      } else {
        e := touches[0];
        touches := touches[1..];
      }
    }

    /** system_millis */
    method Millis() returns (now: nat)
      ensures now == clock
    {
      now := clock;
    }

    /** system_delay: returns once `ms` milliseconds have passed. */
    method Sleep(ms: nat)
      modifies this`trace, this`clock
      ensures trace == old(trace) + [Delay(ms)]
      ensures clock == old(clock) + ms
    {
      trace := trace + [Delay(ms)];
      clock := clock + ms;
    }

    method SetLed(on: bool)
      modifies this`trace
      ensures trace == old(trace) + [LedSet(on)]
    {
      trace := trace + [LedSet(on)];
    }

    method Blink(times: int, delayMs: int)
      modifies this`trace
      ensures trace == old(trace) + [LedBlink(times, delayMs)]
    {
      trace := trace + [LedBlink(times, delayMs)];
    }

    method Buzz(frequency: u16, duration: u16)
      modifies this`trace
      ensures trace == old(trace) + [Tone(frequency, duration)]
    {
      trace := trace + [Tone(frequency, duration)];
    }

    method BuzzSuccess()
      modifies this`trace
      ensures trace == old(trace) + [ToneSuccess]
    {
      trace := trace + [ToneSuccess];
    }

    /** storage_save: the value is committed before the call returns. */
    method StorageSave(key: string, value: Blob) returns (ok: bool)
      modifies this`trace, this`store
      ensures ok
      ensures trace == old(trace) + [Save(key, value)]
      ensures store == old(store)[key := value]
    {
      trace := trace + [Save(key, value)];
      store := store[key := value];
      ok := true;
    }

    /** storage_load: copies up to buf.Length stored bytes, returns how many; 0 if the key is absent. */
    method StorageLoad(key: string, buf: array<byte>) returns (n: nat)
      modifies this`trace, buf
      ensures trace == old(trace) + [Load(key)]
      ensures n == LoadedLength(store, key, buf.Length)
      ensures buf[..n] == Fetch(store, key)[..n]
      ensures buf[n..] == old(buf[n..])
    {
      var b := Fetch(store, key);
      n := LoadedLength(store, key, buf.Length);
      var i := 0;
      while i < n
        modifies buf
        invariant 0 <= i <= n
        invariant buf[..i] == b[..i]
        invariant buf[n..] == old(buf[n..])
      {
        buf[i] := b[i];
        i := i + 1;
      }
      trace := trace + [Load(key)];
    }
  }
}
