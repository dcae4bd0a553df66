/** The settings store (frontend/src/composables/useSettings.js): one record
    holding the API key, coerced from whatever storage or a caller supplies,
    and written back to storage after every change. */
module Settings {
  import opened Wrappers
  import opened Json

  datatype Settings = Settings(openaiApiKey: string)

  /** The defaults: no key. */
  const Defaults := Settings("")

  const KeyField := "openaiApiKey"

  /** `sanitizeSettings`: any value becomes a settings record. Anything that
      is not a non-null object gives the defaults; an object keeps its key
      only when the key is a string, and no other property survives. */
  function Sanitize(v: Value): (r: Settings)
    ensures !v.Obj? ==> r == Defaults
    ensures v.Obj? && KeyField in v.fields && v.fields[KeyField].Str? ==> r.openaiApiKey == v.fields[KeyField].s
    ensures !(v.Obj? && KeyField in v.fields && v.fields[KeyField].Str?) ==> r.openaiApiKey == ""
  {
    if !v.Truthy() || !v.IsObjectType() then Defaults
    else
      match v.Get(KeyField)
      case Some(Str(key)) => Settings(key)
      case _ => Settings("")
  }

  /** A record as `JSON.stringify` writes it and `JSON.parse` reads it back. */
  function Encode(s: Settings): (v: Value)
    ensures Sanitize(v) == s
  {
    Obj(map[KeyField := Str(s.openaiApiKey)])
  }

  /** Sanitising is idempotent: a sanitised record passes through unchanged. */
  lemma SanitizeIdempotent(v: Value)
    ensures Sanitize(Encode(Sanitize(v))) == Sanitize(v)
  {
  }

  /** Start-up: nothing stored or unparseable text gives the defaults; a parsed
      value is sanitised and spread over the defaults. */
  function Load(stored: Stored): (r: Settings)
    ensures !stored.Parsed? ==> r == Defaults
    ensures stored.Parsed? ==> r == Sanitize(stored.value)
  {
    match stored
    case Parsed(v) => Defaults.(openaiApiKey := Sanitize(v).openaiApiKey)
    case _ => Defaults
  }

  /** `updateSettings`: the sanitised patch is spread over the current record.
      The sanitised patch always carries a key, so the result's key is the
      patch's string key or the empty string, whatever the current key was. */
  function Update(current: Settings, patch: Value): (r: Settings)
    ensures patch.Obj? && KeyField in patch.fields && patch.fields[KeyField].Str?
        ==> r.openaiApiKey == patch.fields[KeyField].s
    ensures !(patch.Obj? && KeyField in patch.fields && patch.fields[KeyField].Str?)
        ==> r == Defaults
  {
    current.(openaiApiKey := Sanitize(patch).openaiApiKey)
  }

  /** The merge forgets the current record: a patch decides the result alone. */
  lemma UpdateIgnoresCurrent(a: Settings, b: Settings, patch: Value)
    ensures Update(a, patch) == Update(b, patch)
  {
  }

  /** `clearSettings`: back to the defaults. */
  function Clear(current: Settings): (r: Settings)
    ensures r == Defaults && r.openaiApiKey == ""
  {
    Defaults
  }

  // ---------------------------------------------------------------------
  // The store with its persisted copy

  /** The record and the stored blob under the settings key. */
  datatype Store = Store(settings: Settings, stored: Stored)

  /** What the persistence step writes for a record: its sanitised encoding. */
  function Persisted(s: Settings): Stored {
    Parsed(Encode(Sanitize(Encode(s))))
  }

  predicate Synced(st: Store) {
    st.stored == Persisted(st.settings)
  }

  function Open(stored: Stored): (st: Store)
    ensures st.stored == stored
    ensures st.settings == Load(stored)
    ensures !stored.Parsed? ==> st.settings == Defaults
    ensures stored.Parsed? ==> st.settings == Sanitize(stored.value)
  {
    Store(Load(stored), stored)
  }

  function UpdateStore(st: Store, patch: Value): (r: Store)
    ensures Synced(r)
    ensures r.settings == Sanitize(patch)
  {
    var s := Update(st.settings, patch);
    Store(s, Persisted(s))
  }

  function ClearStore(st: Store): (r: Store)
    ensures Synced(r) && r.settings == Defaults
  {
    var s := Clear(st.settings);
    Store(s, Persisted(s))
  }

  /** Whatever was persisted is read back unchanged on the next start-up. */
  lemma ReopenSynced(st: Store)
    requires Synced(st)
    ensures Open(st.stored).settings == st.settings
  {
  }

  /** After clearing, the next start-up sees the defaults. */
  lemma ClearThenReopen(st: Store)
    ensures Open(ClearStore(st).stored).settings == Defaults
  {
    ReopenSynced(ClearStore(st));
  }

  /** A patch without a string key wipes a stored key, and the wiped key is
      what the next start-up sees. */
  lemma PatchWithoutKeyClears(st: Store, patch: Value)
    requires !(patch.Obj? && KeyField in patch.fields && patch.fields[KeyField].Str?)
    ensures Open(UpdateStore(st, patch).stored).settings.openaiApiKey == ""
  {
  }
}
