/**
 * The browser backend of the HAL (src/sim/hal-wasm.cpp): the touch FIFO fed
 * by the page, the single-tag NFC "queue", the three initialisation flags,
 * and the guards in front of every call into the host page. The host calls
 * (js_*) are foreign: each one made is an entry of `calls`, and what a host
 * call returns is a parameter of the operation that makes it.
 */
module WasmHal {
  import opened Hal

  /** The touch queue keeps at most this many events. */
  const TOUCH_QUEUE_LIMIT: nat := 10

  /** A call into the host page. */
  datatype HostCall =
    | JsDisplayClear
    | JsSetPixel(x: u16, y: u16, black: bool)
    | JsDrawText(x: u16, y: u16, text: string, size: byte)
    | JsDisplayUpdate(partial: bool)
    | JsNfcWrite(ndef: seq<byte>)
    | JsStorageSave(key: string, data: seq<byte>)
    | JsStorageLoad(key: string, maxLength: u16)
    | JsStorageDelete(key: string)

  /** The newest `limit` entries of q, oldest first: what survives the drop-oldest loop. */
  function KeepNewest<T>(q: seq<T>, limit: nat): (r: seq<T>)
    ensures |r| == if |q| <= limit then |q| else limit
    ensures r == q[|q| - |r|..]
  {
    if |q| <= limit then q else q[|q| - limit..]
  }

  /** Trimming early changes nothing: the newest entries of a trimmed prefix and more are the newest of all. */
  lemma KeepNewestAbsorbs<T>(s: seq<T>, t: seq<T>, limit: nat)
    ensures KeepNewest(KeepNewest(s, limit) + t, limit) == KeepNewest(s + t, limit)
  {
    var k := KeepNewest(s, limit);
    var lhs, rhs := KeepNewest(k + t, limit), KeepNewest(s + t, limit);
    assert |lhs| == |rhs|;
    forall i | 0 <= i < |lhs| ensures lhs[i] == rhs[i] {
      var j := |k + t| - |lhs| + i;
      assert lhs[i] == (k + t)[j];
      assert rhs[i] == (s + t)[|s| - |k| + j];
      if j < |k| {
        assert (k + t)[j] == k[j] == s[|s| - |k| + j];
      } else {
        assert (k + t)[j] == t[j - |k|];
      }
    }
  }

  /** The touch queue after the page pushes `events` one at a time. */
  function PushAll(q: seq<TouchEvent>, events: seq<TouchEvent>): seq<TouchEvent>
    decreases |events|
  {
    if events == [] then q else PushAll(KeepNewest(q + [events[0]], TOUCH_QUEUE_LIMIT), events[1..])
  }

  /**
   * However many events are pushed, the queue holds the newest ten of
   * everything it has seen, in the order they arrived.
   */
  lemma {:induction false} PushAllKeepsNewest(q: seq<TouchEvent>, events: seq<TouchEvent>)
    requires |q| <= TOUCH_QUEUE_LIMIT
    ensures PushAll(q, events) == KeepNewest(q + events, TOUCH_QUEUE_LIMIT)
    decreases |events|
  {
    if events != [] {
      var first, rest := q + [events[0]], events[1..];
      var q1 := KeepNewest(first, TOUCH_QUEUE_LIMIT);
      assert first + rest == q + events by {
        assert events == [events[0]] + rest;
      }
      calc {
        PushAll(q, events);
        PushAll(q1, rest);
        { PushAllKeepsNewest(q1, rest); }
        KeepNewest(q1 + rest, TOUCH_QUEUE_LIMIT);
        { KeepNewestAbsorbs(first, rest, TOUCH_QUEUE_LIMIT); }
        KeepNewest(first + rest, TOUCH_QUEUE_LIMIT);
      }
    }
  }

  /** A length the source clamps: n, but never more than cap. */
  function Clamp(n: nat, cap: nat): (r: nat)
    ensures r <= cap && r <= n
    ensures r == n || r == cap
  {
    if n < cap then n else cap
  }

  class Simulator {
    var touchQueue: seq<TouchEvent>
    var nfcQueue: seq<NfcTag>
    var displayInitialized: bool
    var nfcInitialized: bool
    var touchInitialized: bool
    var calls: seq<HostCall>

    /** The touch queue within its cap; at most one tag, within its capacities. */
    ghost predicate Valid()
      reads this
    {
      && |touchQueue| <= TOUCH_QUEUE_LIMIT
      && |nfcQueue| <= 1
      && forall i :: 0 <= i < |nfcQueue| ==> ValidTag(nfcQueue[i])
    }

    /** The statics at load time: nothing initialised, both queues empty. */
    constructor ()
      ensures Valid()
      ensures touchQueue == [] && nfcQueue == [] && calls == []
      ensures !displayInitialized && !nfcInitialized && !touchInitialized
    {
      touchQueue, nfcQueue := [], [];
      displayInitialized, nfcInitialized, touchInitialized := false, false, false;
      calls := [];
    }

    // ----- display -----

    /** display_init */
    method InitDisplay()
      modifies this`displayInitialized, this`calls
      ensures displayInitialized
      ensures calls == old(calls) + [JsDisplayClear]
    {
      displayInitialized := true;
      calls := calls + [JsDisplayClear];
    }

    /** display_clear */
    method ClearDisplay()
      modifies this`calls
      ensures calls == old(calls) + (if displayInitialized then [JsDisplayClear] else [])
    {
      if !displayInitialized {
        return;
      }
      calls := calls + [JsDisplayClear];
    }

    /** display_set_pixel: nothing reaches the host before init or off the 296 x 296 surface. */
    method SetPixel(x: u16, y: u16, black: bool)
      modifies this`calls
      ensures calls == old(calls) + (if displayInitialized && OnScreen(x, y) then [JsSetPixel(x, y, black)] else [])
    {
      if !displayInitialized {
        return;
      }
      if x >= DISPLAY_WIDTH || y >= DISPLAY_HEIGHT {
        return;
      }
      calls := calls + [JsSetPixel(x, y, black)];
    }

    /** display_draw_text: a null text (None) is dropped. */
    method DrawString(x: u16, y: u16, text: Option<string>, size: byte)
      modifies this`calls
      ensures calls == old(calls) + (if displayInitialized && text.Some? then [JsDrawText(x, y, text.value, size)] else [])
    {
      if !displayInitialized || text.None? {
        return;
      }
      calls := calls + [JsDrawText(x, y, text.value, size)];
    }

    /** display_update */
    method Refresh(partial: bool)
      modifies this`calls
      ensures calls == old(calls) + (if displayInitialized then [JsDisplayUpdate(partial)] else [])
    {
      if !displayInitialized {
        return;
      }
      calls := calls + [JsDisplayUpdate(partial)];
    }

    // ----- NFC -----

    /** nfc_init */
    method InitNfc()
      modifies this`nfcInitialized
      ensures nfcInitialized
    {
      nfcInitialized := true;
    }

    /** nfc_tag_present: whether a tag is queued, initialised or not. */
    method TagPresent() returns (present: bool)
      ensures present <==> nfcQueue != []
    {
      present := nfcQueue != [];
    }

    /**
     * nfc_get_uid: copy the queued tag's UID into `out` (null: None) and
     * return its length; 0 before init, for a null buffer or with no tag.
     * The tag stays queued.
     */
    method GetUid(out: array?<byte>) returns (n: int)
      requires Valid()
      requires out != null ==> out.Length >= UID_CAPACITY
      modifies out
      ensures nfcInitialized && out != null && nfcQueue != [] ==>
                && n == |nfcQueue[0].uid| && out[..n] == nfcQueue[0].uid && out[n..] == old(out[n..])
      ensures !(nfcInitialized && out != null && nfcQueue != []) ==> n == 0
      ensures out != null && n == 0 ==> out[..] == old(out[..])
    {
      if !nfcInitialized || out == null || nfcQueue == [] {
        return 0;
      }
      var uid := nfcQueue[0].uid;
      forall i | 0 <= i < |uid| {
        out[i] := uid[i];
      }
      n := |uid|;
    }

    /** nfc_read_ndef: as nfc_get_uid, for the NDEF payload. */
    method ReadNdef(out: array?<byte>) returns (n: int)
      requires Valid()
      requires out != null ==> out.Length >= NDEF_CAPACITY
      modifies out
      ensures nfcInitialized && out != null && nfcQueue != [] ==>
                && n == |nfcQueue[0].ndef| && out[..n] == nfcQueue[0].ndef && out[n..] == old(out[n..])
      ensures !(nfcInitialized && out != null && nfcQueue != []) ==> n == 0
      ensures out != null && n == 0 ==> out[..] == old(out[..])
    {
      if !nfcInitialized || out == null || nfcQueue == [] {
        return 0;
      }
      var ndef := nfcQueue[0].ndef;
      forall i | 0 <= i < |ndef| {
        out[i] := ndef[i];
      }
      n := |ndef|;
    }

    /**
     * nfc_write_ndef: refused before init, for a null buffer or a length that
     * is not positive; otherwise the host's answer. The host function takes a
     * 16-bit length, so the int length reaches it modulo 2^16: a write of
     * 65536 bytes hands the host none.
     */
    method WriteNdef(buf: Option<seq<byte>>, len: int, hostOk: bool) returns (ok: bool)
      requires buf.Some? && len > 0 ==> len <= |buf.value|
      modifies this`calls
      ensures var guarded := nfcInitialized && buf.Some? && len > 0;
              && ok == (guarded && hostOk)
              && calls == old(calls) + (if guarded then [JsNfcWrite(buf.value[..len % 0x1_0000])] else [])
    {
      if !nfcInitialized || buf.None? || len <= 0 {
        return false;
      }
      var hostLength: u16 := len % 0x1_0000;
      calls := calls + [JsNfcWrite(buf.value[..hostLength])];
      ok := hostOk;
    }

    /**
     * wasm_nfc_tag: the page reports a tag. Its UID is clamped to 7 bytes and
     * its payload to 512, it is stamped with the clock, and it replaces
     * whatever tag was queued.
     */
    method PushTag(uid: seq<byte>, uidLength: byte, ndef: seq<byte>, ndefLength: u16, now: nat)
      requires Valid()
      requires |uid| >= Clamp(uidLength, UID_CAPACITY) && |ndef| >= Clamp(ndefLength, NDEF_CAPACITY)
      modifies this`nfcQueue
      ensures Valid()
      ensures nfcInitialized ==>
                nfcQueue == [NfcTag(uid[..Clamp(uidLength, UID_CAPACITY)], ndef[..Clamp(ndefLength, NDEF_CAPACITY)], now)]
      ensures !nfcInitialized ==> nfcQueue == old(nfcQueue)
    {
      if !nfcInitialized {
        return;
      }
      var uidCount := if uidLength < 7 then uidLength else 7;
      var ndefCount := if ndefLength < 512 then ndefLength else 512;
      var tag := NfcTag(uid[..uidCount], ndef[..ndefCount], now);
      while nfcQueue != []
        invariant Valid()
        decreases |nfcQueue|
      {
        nfcQueue := nfcQueue[1..];
      }
      nfcQueue := nfcQueue + [tag];
    }

    /** wasm_nfc_tag_removed: empty the queue. */
    method RemoveTag()
      requires Valid()
      modifies this`nfcQueue
      ensures Valid() && nfcQueue == []
    {
      while nfcQueue != []
        invariant Valid()
        decreases |nfcQueue|
      {
        nfcQueue := nfcQueue[1..];
      }
    }

    // ----- touch -----

    /** touch_init */
    method InitTouch()
      modifies this`touchInitialized
      ensures touchInitialized
    {
      touchInitialized := true;
    }

    /**
     * touch_read: before init, for a null destination (outGiven false) or
     * with nothing queued, report no event and leave the queue alone;
     * otherwise take the front event.
     */
    method ReadTouch(outGiven: bool) returns (e: Option<TouchEvent>)
      requires Valid()
      modifies this`touchQueue
      ensures Valid()
      ensures touchInitialized && outGiven && old(touchQueue) != [] ==>
                e == Some(old(touchQueue)[0]) && touchQueue == old(touchQueue)[1..]
      ensures !(touchInitialized && outGiven && old(touchQueue) != []) ==> e.None? && touchQueue == old(touchQueue)
    {
      if !touchInitialized || !outGiven || touchQueue == [] {
        return None;
      }
      e := Some(touchQueue[0]);
      touchQueue := touchQueue[1..];
    }

    /**
     * wasm_touch_event: the page reports a touch. Once initialised, the event
     * joins the back of the queue and the oldest events are dropped until at
     * most ten remain.
     */
    method PushTouch(x: u16, y: u16, kind: byte, timestamp: nat)
      requires Valid()
      modifies this`touchQueue
      ensures Valid()
      ensures touchQueue == if touchInitialized then KeepNewest(old(touchQueue) + [TouchEvent(x, y, kind, timestamp)], TOUCH_QUEUE_LIMIT)
                            else old(touchQueue)
    {
      if !touchInitialized {
        return;
      }
      touchQueue := touchQueue + [TouchEvent(x, y, kind, timestamp)];
      ghost var pushed := touchQueue;
      while |touchQueue| > TOUCH_QUEUE_LIMIT
        invariant |touchQueue| <= |pushed| && touchQueue == pushed[|pushed| - |touchQueue|..]
        invariant |touchQueue| >= TOUCH_QUEUE_LIMIT || touchQueue == pushed
        decreases |touchQueue|
      {
        touchQueue := touchQueue[1..];
      }
    }

    // ----- storage -----

    /** storage_save: refused for a null key or data, or a zero length; otherwise the host's answer. */
    method StorageSave(key: Option<string>, data: Option<seq<byte>>, length: u16, hostOk: bool) returns (ok: bool)
      requires data.Some? ==> length <= |data.value|
      modifies this`calls
      ensures var guarded := key.Some? && data.Some? && length != 0;
              && ok == (guarded && hostOk)
              && calls == old(calls) + (if guarded then [JsStorageSave(key.value, data.value[..length])] else [])
    {
      if key.None? || data.None? || length == 0 {
        return false;
      }
      calls := calls + [JsStorageSave(key.value, data.value[..length])];
      ok := hostOk;
    }

    /**
     * storage_load: 0 for a null key or buffer, or a zero capacity; otherwise
     * the host fills the buffer with `hostBytes` (at most maxLength of them)
     * and their count is returned.
     */
    method StorageLoad(key: Option<string>, data: array?<byte>, maxLength: u16, hostBytes: seq<byte>) returns (n: u16)
      requires data != null ==> maxLength <= data.Length
      requires |hostBytes| <= maxLength
      modifies this`calls, data
      ensures var guarded := key.Some? && data != null && maxLength != 0;
              && n == (if guarded then |hostBytes| else 0)
              && calls == old(calls) + (if guarded then [JsStorageLoad(key.value, maxLength)] else [])
              && (guarded ==> data[..n] == hostBytes && data[n..] == old(data[n..]))
              && (data != null && !guarded ==> data[..] == old(data[..]))
    {
      if key.None? || data == null || maxLength == 0 {
        return 0;
      }
      calls := calls + [JsStorageLoad(key.value, maxLength)];
      forall i | 0 <= i < |hostBytes| {
        data[i] := hostBytes[i];
      }
      n := |hostBytes|;
    }

    /** storage_delete: refused for a null key; otherwise the host's answer. */
    method StorageDelete(key: Option<string>, hostOk: bool) returns (ok: bool)
      modifies this`calls
      ensures ok == (key.Some? && hostOk)
      ensures calls == old(calls) + (if key.Some? then [JsStorageDelete(key.value)] else [])
    {
      if key.None? {
        return false;
      }
      calls := calls + [JsStorageDelete(key.value)];
      ok := hostOk;
    }
  }
}
