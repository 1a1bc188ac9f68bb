/**
 * The pending-request indicator (client/src/components/OfflineRequestMonitor.tsx).
 *
 * It shows how many requests wait in the offline queue, refreshes that count on
 * mount, on each polling tick and on storage events for the queue key, and offers a
 * manual sync while online.
 */
module RequestMonitor {
  import opened Wrappers
  import opened OfflineStorage

  /** What the indicator shows when it is rendered at all. */
  datatype Panel = Panel(count: nat, pluralSuffix: string, syncButton: bool, syncing: bool)

  /** The `s` that follows "request" in the message. */
  function PluralSuffix(count: nat): (r: string)
    ensures r == "s" <==> count > 1
    ensures r == "" <==> count <= 1
  {
    if count > 1 then "s" else ""
  }

  class OfflineRequestMonitor {
    const storage: LocalStorage
    /** The displayed count (the `offlineRequests` state field). */
    var offlineRequests: nat
    var isSyncing: bool

    /** Mounting: the state starts at zero, then the count is read from the queue. */
    constructor (storage: LocalStorage)
      ensures this.storage == storage
      ensures offlineRequests == |QueueOf(storage.items)| && !isSyncing
    {
      this.storage := storage;
      offlineRequests := |QueueOf(storage.items)|;
      isSyncing := false;
    }

    /** `updateRequestCount()`, also the 30-second polling tick. */
    method UpdateRequestCount()
      modifies this
      ensures offlineRequests == |QueueOf(storage.items)|
      ensures isSyncing == old(isSyncing)
    {
      var requests := GetOfflineRequests(storage);
      offlineRequests := |requests|;
    }

    /** The `storage` event handler: only an event for the queue key refreshes the count. */
    method OnStorageEvent(key: Option<string>)
      modifies this
      ensures key == Some(QueueKey) ==> offlineRequests == |QueueOf(storage.items)|
      ensures key != Some(QueueKey) ==> offlineRequests == old(offlineRequests)
      ensures isSyncing == old(isSyncing)
    {
      if key == Some(QueueKey) {
        UpdateRequestCount();
      }
    }

    /**
     * `handleSync()`: only when online and the displayed count is positive, sync the
     * queue and re-read the count, which is then zero.
     */
    method HandleSync(online: bool) returns (batch: seq<EmergencyRequest>)
      modifies this, storage
      ensures !(online && old(offlineRequests) > 0) ==>
        batch == [] && storage.items == old(storage.items) &&
        offlineRequests == old(offlineRequests) && isSyncing == old(isSyncing)
      ensures online && old(offlineRequests) > 0 ==>
        batch == old(QueueOf(storage.items)) &&
        storage.items == (if batch == [] then old(storage.items) else old(storage.items) - {QueueKey}) &&
        QueueOf(storage.items) == [] && offlineRequests == 0 && !isSyncing
    {
      batch := [];
      if online && offlineRequests > 0 {
        isSyncing := true;
        batch := SyncOfflineRequests(storage);
        isSyncing := false;
        UpdateRequestCount();
      }
    }

    /** The rendered indicator: nothing when the count is zero. */
    function View(online: bool): (r: Option<Panel>)
      reads this
      ensures r == None <==> offlineRequests == 0
      ensures r != None ==> r.value.count == offlineRequests
      ensures r != None ==> (r.value.pluralSuffix == "s" <==> offlineRequests > 1)
      ensures r != None ==> (r.value.syncButton <==> online)
    {
      if offlineRequests == 0 then None
      else Some(Panel(offlineRequests, PluralSuffix(offlineRequests), online, isSyncing))
    }
  }
}
