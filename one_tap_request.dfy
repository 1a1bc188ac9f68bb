/**
 * One-tap emergency capture (client/src/components/OneTapRequest.tsx).
 *
 * A tap and the settling of the geolocation request are two atomic steps: `Tap`
 * records the tapped type in `isProcessing` and the connectivity flag read at that
 * moment; `LocationSettled` runs the success or error callback with that flag.
 */
module OneTap {
  import opened Wrappers
  import opened OfflineStorage

  const DeviceIdPrefix: string := "device-"

  /** The device-id key, when present, holds text: only `GetDeviceId` writes it. */
  predicate DeviceIdIsText(items: map<string, StoredValue>)
  {
    DeviceIdKey in items ==> items[DeviceIdKey].Text?
  }

  /** The stored id counts only when it is non-empty (`if (!deviceId)`). */
  predicate HasDeviceId(items: map<string, StoredValue>)
  {
    DeviceIdKey in items && items[DeviceIdKey].Text? && items[DeviceIdKey].text != ""
  }

  /** The id `getDeviceId` returns; `suffix` stands for the random base-36 digits. */
  function ResolvedDeviceId(items: map<string, StoredValue>, suffix: string): (id: string)
    ensures HasDeviceId(items) ==> id == items[DeviceIdKey].text
    ensures !HasDeviceId(items) ==> id == DeviceIdPrefix + suffix
    ensures id != ""
  {
    if HasDeviceId(items) then items[DeviceIdKey].text else DeviceIdPrefix + suffix
  }

  /** The store after `getDeviceId`: a fresh id is written only when none is stored. */
  function WithDeviceId(items: map<string, StoredValue>, suffix: string): (r: map<string, StoredValue>)
    ensures HasDeviceId(items) ==> r == items
    ensures !HasDeviceId(items) ==> r == items[DeviceIdKey := Text(DeviceIdPrefix + suffix)]
    ensures QueueOf(r) == QueueOf(items)
  {
    if HasDeviceId(items) then items else items[DeviceIdKey := Text(DeviceIdPrefix + suffix)]
  }

  /** `getDeviceId()` */
  method GetDeviceId(st: LocalStorage, suffix: string) returns (id: string)
    requires DeviceIdIsText(st.items)
    modifies st
    ensures id == ResolvedDeviceId(old(st.items), suffix)
    ensures st.items == WithDeviceId(old(st.items), suffix)
    ensures HasDeviceId(st.items) && st.items[DeviceIdKey].text == id
  {
    var stored := st.GetItem(DeviceIdKey);
    if stored.Some? && stored.value.text != "" {
      id := stored.value.text;
    } else {
      id := DeviceIdPrefix + suffix;
      st.SetItem(DeviceIdKey, Text(id));
    }
  }

  /** The device id is stable: a second resolution returns the first one and writes nothing. */
  lemma DeviceIdStable(items: map<string, StoredValue>, suffix1: string, suffix2: string)
    ensures ResolvedDeviceId(WithDeviceId(items, suffix1), suffix2) == ResolvedDeviceId(items, suffix1)
    ensures WithDeviceId(WithDeviceId(items, suffix1), suffix2) == WithDeviceId(items, suffix1)
  {
    if !HasDeviceId(items) {
      assert DeviceIdPrefix + suffix1 != "";
    }
  }

  /** A freshly generated id starts with "device-". */
  lemma GeneratedIdHasPrefix(items: map<string, StoredValue>, suffix: string)
    requires !HasDeviceId(items)
    ensures |ResolvedDeviceId(items, suffix)| >= |DeviceIdPrefix|
    ensures ResolvedDeviceId(items, suffix)[..|DeviceIdPrefix|] == DeviceIdPrefix
  {
  }

  /** How the geolocation request settled. */
  datatype LocationOutcome = Located(position: Position) | LocationFailed

  /**
   * The offline branch's own read-modify-write of the queue, as written: the stored
   * text (or "[]" when it is missing or empty) is parsed with no try/catch, so text
   * that is not JSON throws (`None`) instead of reading as empty.
   */
  function InlineAppend(items: map<string, StoredValue>, request: EmergencyRequest): (r: Option<map<string, StoredValue>>)
    ensures r == None <==> QueueKey in items && items[QueueKey].Text? && items[QueueKey].text != ""
    ensures r != None ==> QueueOf(r.value) == QueueOf(items) + [request]
  {
    if QueueKey !in items then Some(items[QueueKey := Requests([request])])
    else match items[QueueKey]
      case Requests(rs) => Some(items[QueueKey := Requests(rs + [request])])
      case Text(t) => if t == "" then Some(items[QueueKey := Requests([request])]) else None
  }

  /** On a missing, empty or well-formed queue the inline append and `storeOfflineRequest` agree. */
  lemma InlineAppendAgrees(items: map<string, StoredValue>, request: EmergencyRequest)
    requires QueueKey !in items || items[QueueKey].Requests? || items[QueueKey] == Text("")
    ensures InlineAppend(items, request) == Some(Enqueued(items, request))
  {
    if QueueKey !in items || items[QueueKey].Text? {
      assert QueueOf(items) + [request] == [request];
    }
  }

  /**
   * On queue text that does not parse, the inline append throws (nothing is stored and
   * the callback stops before `isProcessing` is reset), whereas `storeOfflineRequest`
   * recovers and stores the request as a one-element queue.
   */
  lemma InlineAppendThrowsOnCorruptQueue(items: map<string, StoredValue>, request: EmergencyRequest)
    requires QueueKey in items && items[QueueKey].Text? && items[QueueKey].text != ""
    ensures InlineAppend(items, request) == None
    ensures QueueOf(Enqueued(items, request)) == [request]
  {
  }

  /** The same, on a concrete store holding corrupt queue text. */
  lemma InlineAppendCounterexample(request: EmergencyRequest)
    ensures InlineAppend(map[QueueKey := Text("{oops")], request) == None
    ensures Enqueued(map[QueueKey := Text("{oops")], request) == map[QueueKey := Requests([request])]
  {
    var items := map[QueueKey := Text("{oops")];
    assert QueueOf(items) + [request] == [request];
    assert items[QueueKey := Requests([request])] == map[QueueKey := Requests([request])];
  }

  /** The one-tap panel: three buttons sharing one `isProcessing` state field. */
  class OneTapRequest {
    const storage: LocalStorage
    var isProcessing: Option<EmergencyType>
    /** `navigator.onLine` as read when the button was tapped, before the location request. */
    var onlineAtTap: bool

    constructor (storage: LocalStorage)
      ensures this.storage == storage && isProcessing == None && !onlineAtTap
    {
      this.storage := storage;
      isProcessing := None;
      onlineAtTap := false;
    }

    /** All three buttons are disabled while a request is being processed. */
    predicate ButtonsDisabled()
      reads this
    {
      isProcessing != None
    }

    /**
     * A tap on the button for `kind`. A disabled button ignores it; otherwise the tapped
     * type is recorded and the connectivity flag is read. Without a geolocation
     * capability the handler gives up at once (nothing is captured).
     */
    method Tap(kind: EmergencyType, online: bool, geolocationAvailable: bool)
      modifies this
      ensures old(ButtonsDisabled()) ==> isProcessing == old(isProcessing) && onlineAtTap == old(onlineAtTap)
      ensures !old(ButtonsDisabled()) ==> onlineAtTap == online
      ensures !old(ButtonsDisabled()) && geolocationAvailable ==> isProcessing == Some(kind)
      ensures !old(ButtonsDisabled()) && !geolocationAvailable ==> isProcessing == None
    {
      if isProcessing != None {
        return;
      }
      isProcessing := Some(kind);
      onlineAtTap := online;
      if !geolocationAvailable {
        isProcessing := None;
      }
    }

    /**
     * The geolocation callbacks, with the offline branch storing through
     * `storeOfflineRequest` (the corrected path; `LocationSettledAsWritten` is the
     * branch as written). On success a request of the tapped type is captured
     * (resolving the device id) and, by the flag read at tap time, either sent (the queue
     * is not touched) or stored offline (the queue grows by that request). On error
     * nothing is captured. Either way `isProcessing` returns to `None`.
     */
    method LocationSettled(fix: LocationOutcome, now: int, suffix: string) returns (request: Option<EmergencyRequest>)
      requires isProcessing != None
      requires DeviceIdIsText(storage.items)
      modifies this, storage
      ensures isProcessing == None && onlineAtTap == old(onlineAtTap)
      ensures DeviceIdIsText(storage.items)
      ensures fix.LocationFailed? ==> request == None && storage.items == old(storage.items)
      ensures fix.Located? ==> request == Some(EmergencyRequest(
        old(isProcessing).value, Some(fix.position), now, ResolvedDeviceId(old(storage.items), suffix)))
      ensures fix.Located? && old(onlineAtTap) ==>
        storage.items == WithDeviceId(old(storage.items), suffix) &&
        QueueOf(storage.items) == old(QueueOf(storage.items))
      ensures fix.Located? && !old(onlineAtTap) ==>
        storage.items == Enqueued(WithDeviceId(old(storage.items), suffix), request.value) &&
        QueueOf(storage.items) == old(QueueOf(storage.items)) + [request.value]
    {
      match fix
      case LocationFailed =>
        isProcessing := None;
        request := None;
      case Located(position) =>
        var id := GetDeviceId(storage, suffix);
        var captured := EmergencyRequest(isProcessing.value, Some(position), now, id);
        request := Some(captured);
        if onlineAtTap {
          isProcessing := None;
        } else {
          StoreOfflineRequest(storage, captured);
          isProcessing := None;
        }
    }
  
    /**
     * The geolocation callbacks as written: the offline branch appends with its own
     * `JSON.parse` and no try/catch. When that throws, the callback stops after the
     * device id was resolved: the request is not stored and `isProcessing` is never
     * reset, so the buttons stay disabled.
     */
    method LocationSettledAsWritten(fix: LocationOutcome, now: int, suffix: string) returns (request: Option<EmergencyRequest>)
      requires isProcessing != None
      requires DeviceIdIsText(storage.items)
      modifies this, storage
      ensures onlineAtTap == old(onlineAtTap)
      ensures fix.LocationFailed? ==> request == None && storage.items == old(storage.items) && isProcessing == None
      ensures fix.Located? ==> request == Some(EmergencyRequest(
        old(isProcessing).value, Some(fix.position), now, ResolvedDeviceId(old(storage.items), suffix)))
      ensures fix.Located? && old(onlineAtTap) ==>
        storage.items == WithDeviceId(old(storage.items), suffix) && isProcessing == None
      ensures fix.Located? && !old(onlineAtTap) ==>
        var written := InlineAppend(WithDeviceId(old(storage.items), suffix), request.value);
        (written != None ==> storage.items == written.value && isProcessing == None) &&
        (written == None ==> storage.items == WithDeviceId(old(storage.items), suffix) &&
                             isProcessing == old(isProcessing))
      ensures (fix.Located? && !old(onlineAtTap) && QueueKey in old(storage.items) &&
               old(storage.items)[QueueKey].Text? && old(storage.items)[QueueKey].text != "")
              ==> ButtonsDisabled() && QueueOf(storage.items) == []
    {
      match fix
      case LocationFailed =>
        isProcessing := None;
        request := None;
      case Located(position) =>
        var id := GetDeviceId(storage, suffix);
        var captured := EmergencyRequest(isProcessing.value, Some(position), now, id);
        request := Some(captured);
        if onlineAtTap {
          isProcessing := None;
        } else {
          var written := InlineAppend(storage.items, captured);
          if written != None {
            storage.items := written.value;
            isProcessing := None;
          }
        }
    }
  }
}
