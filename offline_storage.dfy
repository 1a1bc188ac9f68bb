/**
 * The offline emergency-request queue (client/src/utils/offlineStorage.ts).
 *
 * The browser's localStorage is a `LocalStorage` object holding a map from key to
 * stored value; the queue lives under one key. Reads of an absent key, of empty
 * text and of text that does not parse as JSON give the empty queue.
 */
module OfflineStorage {
  import opened Wrappers

  /** The three aid categories a one-tap request can ask for. */
  datatype EmergencyType = Rescue | Food | Medical

  /** Geolocation coordinates, kept as an opaque record. */
  datatype Position = Position(latitude: real, longitude: real, accuracy: real)

  /** A captured request; `timestamp` is milliseconds since the epoch. */
  datatype EmergencyRequest = EmergencyRequest(
    kind: EmergencyType,
    location: Option<Position>,
    timestamp: int,
    deviceId: string)

  /**
   * A value held in localStorage. `Requests(rs)` is the JSON text of the array `rs`;
   * `Text(t)` is any other text the model keeps: an id, an empty string, or text that
   * is not JSON at all. JSON that parses to something other than a list is not modelled.
   */
  datatype StoredValue = Text(text: string) | Requests(requests: seq<EmergencyRequest>)

  const QueueKey: string := "offline-emergency-requests"
  const DeviceIdKey: string := "emergency-device-id"

  /** The browser's localStorage: a string-keyed store that survives reloads. */
  class LocalStorage {
    var items: map<string, StoredValue>

    constructor (initial: map<string, StoredValue>)
      ensures items == initial
    {
      items := initial;
    }

    /** `localStorage.getItem(key)`; `None` is `null`. */
    method GetItem(key: string) returns (v: Option<StoredValue>)
      ensures key in items ==> v == Some(items[key])
      ensures key !in items ==> v == None
    {
      v := if key in items then Some(items[key]) else None;
    }

    /** `localStorage.setItem(key, value)` */
    method SetItem(key: string, value: StoredValue)
      modifies this
      ensures items == old(items)[key := value]
    {
      items := items[key := value];
    }

    /** `localStorage.removeItem(key)` */
    method RemoveItem(key: string)
      modifies this
      ensures items == old(items) - {key}
    {
      items := items - {key};
    }
  }

  /** What `getOfflineRequests` reads from a given store content. */
  function QueueOf(items: map<string, StoredValue>): (q: seq<EmergencyRequest>)
    ensures QueueKey !in items ==> q == []
    ensures QueueKey in items && items[QueueKey].Text? ==> q == []
    ensures QueueKey in items && items[QueueKey].Requests? ==> q == items[QueueKey].requests
    ensures q != [] ==> items[QueueKey] == Requests(q)
  {
    if QueueKey in items && items[QueueKey].Requests? then items[QueueKey].requests else []
  }

  /** The store content after `storeOfflineRequest(request)`. */
  function Enqueued(items: map<string, StoredValue>, request: EmergencyRequest): (r: map<string, StoredValue>)
    ensures QueueOf(r) == QueueOf(items) + [request]
    ensures r.Keys == items.Keys + {QueueKey}
    ensures forall k :: k in items && k != QueueKey ==> r[k] == items[k]
  {
    items[QueueKey := Requests(QueueOf(items) + [request])]
  }

  /** The store content after storing each of `requests`, in order. */
  function EnqueuedAll(items: map<string, StoredValue>, requests: seq<EmergencyRequest>): map<string, StoredValue>
    decreases |requests|
  {
    if requests == [] then items else EnqueuedAll(Enqueued(items, requests[0]), requests[1..])
  }

  /** `getOfflineRequests()`: never changes storage. */
  method GetOfflineRequests(st: LocalStorage) returns (requests: seq<EmergencyRequest>)
    ensures requests == QueueOf(st.items)
    ensures QueueKey !in st.items ==> requests == []
  {
    var v := st.GetItem(QueueKey);
    match v
    case None => requests := [];
    case Some(Text(_)) => requests := [];
    case Some(Requests(rs)) => requests := rs;
  }

  /** `storeOfflineRequest(request)`: read the queue, push, write it back. */
  method StoreOfflineRequest(st: LocalStorage, request: EmergencyRequest)
    modifies st
    ensures st.items == Enqueued(old(st.items), request)
    ensures QueueOf(st.items) == old(QueueOf(st.items)) + [request]
  {
    var offlineRequests := GetOfflineRequests(st);
    offlineRequests := offlineRequests + [request];
    st.SetItem(QueueKey, Requests(offlineRequests));
  }

  /** `clearOfflineRequests()` */
  method ClearOfflineRequests(st: LocalStorage)
    modifies st
    ensures st.items == old(st.items) - {QueueKey}
    ensures QueueOf(st.items) == []
  {
    st.RemoveItem(QueueKey);
  }

  /** `hasPendingRequests()` */
  method HasPendingRequests(st: LocalStorage) returns (pending: bool)
    ensures pending <==> |QueueOf(st.items)| > 0
  {
    var requests := GetOfflineRequests(st);
    pending := |requests| > 0;
  }

  /**
   * `syncOfflineRequests()`: an empty queue returns at once; otherwise the whole
   * queue is handed over as one batch (the simulated delivery always succeeds) and
   * the queue is cleared. `batch` is what was delivered.
   */
  method SyncOfflineRequests(st: LocalStorage) returns (batch: seq<EmergencyRequest>)
    modifies st
    ensures batch == old(QueueOf(st.items))
    ensures batch == [] ==> st.items == old(st.items)
    ensures batch != [] ==> st.items == old(st.items) - {QueueKey}
    ensures QueueOf(st.items) == []
  {
    batch := GetOfflineRequests(st);
    if |batch| == 0 {
      return;
    }
    ClearOfflineRequests(st);
  }

  /** The `online` event handler installed by `initNetworkListener`. */
  method OnOnline(st: LocalStorage) returns (batch: seq<EmergencyRequest>)
    modifies st
    ensures batch == old(QueueOf(st.items))
    ensures old(QueueOf(st.items)) == [] ==> st.items == old(st.items)
    ensures old(QueueOf(st.items)) != [] ==> st.items == old(st.items) - {QueueKey}
  {
    var pending := HasPendingRequests(st);
    if pending {
      batch := SyncOfflineRequests(st);
    } else {
      batch := [];
    }
  }

  /** Stores append in order: the queue after storing `requests` is the old queue followed by them. */
  lemma {:induction false} EnqueuedAllAppends(items: map<string, StoredValue>, requests: seq<EmergencyRequest>)
    ensures QueueOf(EnqueuedAll(items, requests)) == QueueOf(items) + requests
    decreases |requests|
  {
    if requests != [] {
      EnqueuedAllAppends(Enqueued(items, requests[0]), requests[1..]);
      assert [requests[0]] + requests[1..] == requests;
    }
  }

  /** N stores onto an empty queue give a queue of exactly those N requests, in store order. */
  lemma StoresFromEmpty(items: map<string, StoredValue>, requests: seq<EmergencyRequest>)
    requires QueueOf(items) == []
    ensures QueueOf(EnqueuedAll(items, requests)) == requests
    ensures |QueueOf(EnqueuedAll(items, requests))| == |requests|
  {
    EnqueuedAllAppends(items, requests);
  }

  /** Clearing is idempotent: clearing an empty queue leaves it empty and the store as it was. */
  lemma ClearIdempotent(items: map<string, StoredValue>)
    ensures QueueOf(items - {QueueKey}) == []
    ensures (items - {QueueKey}) - {QueueKey} == items - {QueueKey}
  {
  }
}
