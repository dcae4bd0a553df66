/** The log store as a whole (frontend/src/composables/useLogs.js): the
    in-memory list together with what local storage holds, where every
    mutation writes the new list back before anything else can observe it. */
module LogStore {
  import opened Wrappers
  import opened Json
  import opened Logs
  import opened LogView

  /** The list and the stored blob under the log key. */
  datatype Store = Store(logs: seq<LogEntry>, stored: Stored)

  /** Storage mirrors memory: the blob is the encoding of the list. */
  predicate Synced(st: Store) {
    st.stored == Parsed(Arr(EncodeAll(st.logs)))
  }

  /** Start-up: the list is loaded from what storage holds, and storage is left
      as it was until the first mutation. */
  function Open(stored: Stored, now: int): (st: Store)
    ensures st.stored == stored
    ensures st.logs == Load(stored, now)
    ensures forall i :: 0 <= i < |st.logs| ==> st.logs[i].id.Truthy()
    ensures !(stored.Parsed? && stored.value.Arr?) ==> st.logs == []
  {
    Store(Load(stored, now), stored)
  }

  /** Replaces the list and writes it to storage in the same step. */
  function Commit(logs: seq<LogEntry>): (st: Store)
    ensures Synced(st) && st.logs == logs
  {
    Store(logs, Parsed(Arr(EncodeAll(logs))))
  }

  function Add(st: Store, entry: LogEntry): (r: Store)
    ensures Synced(r)
    ensures r.logs == st.logs + [entry]
  {
    Commit(AddLog(st.logs, entry))
  }

  function Remove(st: Store, id: Value): (r: Store)
    ensures Synced(r)
    ensures GetLog(r.logs, id).None?
    ensures forall e :: e in r.logs <==> e in st.logs && e.id != id
  {
    RemoveThenGet(st.logs, id);
    Commit(RemoveLog(st.logs, id))
  }

  /** What the store exposes as its list: the newest-first view. */
  function List(st: Store): (v: seq<LogEntry>)
    ensures multiset(v) == multiset(st.logs)
    ensures NewestFirst(v)
  {
    SortedView(st.logs)
  }

  /** Reopening a synced store gives back its list exactly when every entry
      round-trips through storage. */
  lemma ReopenSynced(st: Store, now: int)
    requires Synced(st)
    ensures Open(st.stored, now).logs == st.logs
        <==> forall i :: 0 <= i < |st.logs| ==> RoundTrips(st.logs[i], now)
  {
    LoadEncodedIff(st.logs, now);
  }

  /** An entry added with a falsy id is kept in memory but is gone after a
      reload: storage and memory agree only up to the loader's filter. */
  lemma FalsyIdLostOnReload(st: Store, entry: LogEntry, now: int)
    requires !entry.id.Truthy()
    ensures Open(Add(st, entry).stored, now).logs != Add(st, entry).logs
  {
  }
}
