/** The journal's log entries: how they are decoded from and encoded to
    storage, and the append / remove-by-id / find-by-id operations of the
    log store (frontend/src/composables/useLogs.js). */
module Logs {
  import opened Wrappers
  import opened Json

  /** One journal entry. `id` is whatever value the entry was created or
      stored with; `createdAt` is a timestamp in milliseconds. */
  datatype LogEntry = LogEntry(
    id: Value,
    createdAt: int,
    event: string,
    feelings: string,
    thoughts: string,
    behaviors: string,
    consequences: string)

  // ---------------------------------------------------------------------
  // Decoding stored items

  /** The loader's filter: `item && typeof item === 'object' && item.id`. */
  predicate Kept(item: Value) {
    item.Truthy() && item.IsObjectType() && TruthyAt(item.Get("id"))
  }

  /** `item.f || ''` for a text field: a stored string is kept, and a falsy
      value becomes the empty string. */
  function TextOrEmpty(o: Option<Value>): (r: string)
    ensures !TruthyAt(o) ==> r == ""
    ensures o.Some? && o.value.Str? ==> r == o.value.s
  {
    match o
    case Some(Str(s)) => s
    case _ => ""
  }

  /** `item.createdAt || now`: a stored timestamp is kept, and a falsy value
      becomes the time of loading. */
  function TimeOrNow(o: Option<Value>, now: int): (r: int)
    ensures !TruthyAt(o) ==> r == now
    ensures o.Some? && o.value.Num? && o.value.n != 0 ==> r == o.value.n
  {
    match o
    case Some(Num(n)) => if n != 0 then n else now
    case _ => now
  }

  /** One element of the stored array: dropped unless it passes the filter,
      otherwise rebuilt with defaults for its falsy fields. */
  function DecodeItem(item: Value, now: int): (r: Option<LogEntry>)
    ensures r.Some? <==> item.Obj? && "id" in item.fields && item.fields["id"].Truthy()
    ensures r.Some? ==> r.value.id == item.fields["id"]
    ensures r.Some? && !TruthyAt(item.Get("createdAt")) ==> r.value.createdAt == now
    ensures r.Some? && !TruthyAt(item.Get("event")) ==> r.value.event == ""
    ensures r.Some? && !TruthyAt(item.Get("feelings")) ==> r.value.feelings == ""
    ensures r.Some? && !TruthyAt(item.Get("thoughts")) ==> r.value.thoughts == ""
    ensures r.Some? && !TruthyAt(item.Get("behaviors")) ==> r.value.behaviors == ""
    ensures r.Some? && !TruthyAt(item.Get("consequences")) ==> r.value.consequences == ""
    ensures r.Some? && "createdAt" in item.fields && item.fields["createdAt"].Num? && item.fields["createdAt"].n != 0
        ==> r.value.createdAt == item.fields["createdAt"].n
    ensures r.Some? && "event" in item.fields && item.fields["event"].Str? ==> r.value.event == item.fields["event"].s
    ensures r.Some? && "feelings" in item.fields && item.fields["feelings"].Str? ==> r.value.feelings == item.fields["feelings"].s
    ensures r.Some? && "thoughts" in item.fields && item.fields["thoughts"].Str? ==> r.value.thoughts == item.fields["thoughts"].s
    ensures r.Some? && "behaviors" in item.fields && item.fields["behaviors"].Str? ==> r.value.behaviors == item.fields["behaviors"].s
    ensures r.Some? && "consequences" in item.fields && item.fields["consequences"].Str?
        ==> r.value.consequences == item.fields["consequences"].s
  {
    if !Kept(item) then None
    else
      Some(LogEntry(
        item.fields["id"],
        TimeOrNow(item.Get("createdAt"), now),
        TextOrEmpty(item.Get("event")),
        TextOrEmpty(item.Get("feelings")),
        TextOrEmpty(item.Get("thoughts")),
        TextOrEmpty(item.Get("behaviors")),
        TextOrEmpty(item.Get("consequences"))))
  }

  /** The `filter(...).map(...)` over the parsed array: an entry comes out
      exactly when some item decodes to it, and `DecodeItemsAppend` shows the
      survivors keep their order. */
  function DecodeItems(items: seq<Value>, now: int): (r: seq<LogEntry>)
    ensures |r| <= |items|
    ensures forall i :: 0 <= i < |r| ==> r[i].id.Truthy()
    ensures |r| == |items| <==> forall i :: 0 <= i < |items| ==> DecodeItem(items[i], now).Some?
    ensures forall e :: e in r <==> exists i :: 0 <= i < |items| && DecodeItem(items[i], now) == Some(e)
  {
    if items == [] then []
    else
      assert forall i :: 0 <= i < |items[1..]| ==> items[1..][i] == items[i + 1];
      assert forall i :: 1 <= i < |items| ==> items[i] == items[1..][i - 1];
      match DecodeItem(items[0], now)
      case Some(e) => [e] + DecodeItems(items[1..], now)
      case None => DecodeItems(items[1..], now)
  }

  /** Loading the log list: nothing stored, unparseable text and a parsed value
      that is not an array all give the empty list, never an error. */
  function Load(stored: Stored, now: int): (r: seq<LogEntry>)
    ensures !(stored.Parsed? && stored.value.Arr?) ==> r == []
    ensures stored.Parsed? && stored.value.Arr? ==> r == DecodeItems(stored.value.items, now)
    ensures stored.Parsed? && stored.value.Arr? ==> |r| <= |stored.value.items|
    ensures forall i :: 0 <= i < |r| ==> r[i].id.Truthy()
  {
    match stored
    case Parsed(Arr(items)) => DecodeItems(items, now)
    case _ => []
  }

  /** Decoding keeps the surviving items in their original order: it maps a
      concatenation of arrays to the concatenation of their decodings. */
  lemma {:induction false} DecodeItemsAppend(a: seq<Value>, b: seq<Value>, now: int)
    ensures DecodeItems(a + b, now) == DecodeItems(a, now) + DecodeItems(b, now)
    decreases |a|
  {
    if a == [] {
      assert a + b == b;
    } else {
      assert (a + b)[0] == a[0];
      assert (a + b)[1..] == a[1..] + b;
      DecodeItemsAppend(a[1..], b, now);
    }
  }

  // ---------------------------------------------------------------------
  // Encoding entries for storage

  /** An entry as `JSON.stringify` writes it; the timestamp is stored as a number. */
  function EncodeEntry(e: LogEntry): Value {
    Obj(map[
      "id" := e.id,
      "createdAt" := Num(e.createdAt),
      "event" := Str(e.event),
      "feelings" := Str(e.feelings),
      "thoughts" := Str(e.thoughts),
      "behaviors" := Str(e.behaviors),
      "consequences" := Str(e.consequences)])
  }

  /** The list as the stored array, element by element. */
  function EncodeAll(logs: seq<LogEntry>): (r: seq<Value>)
    ensures |r| == |logs|
  {
    if logs == [] then [] else [EncodeEntry(logs[0])] + EncodeAll(logs[1..])
  }

  /** An entry survives a write followed by a load at time `now` exactly when
      its id is truthy and its timestamp is not replaced by `now`. */
  predicate RoundTrips(e: LogEntry, now: int) {
    e.id.Truthy() && (e.createdAt != 0 || now == 0)
  }

  /** Decoding an encoded entry returns it unchanged, drops it (falsy id), or
      stamps it with `now` (zero timestamp). */
  lemma DecodeEncodedEntry(e: LogEntry, now: int)
    ensures DecodeItem(EncodeEntry(e), now) == Some(e) <==> RoundTrips(e, now)
    ensures DecodeItem(EncodeEntry(e), now).None? <==> !e.id.Truthy()
  {
  }

  /** Writing the list and loading it back gives the same list exactly when
      every entry round-trips. */
  lemma {:induction false} LoadEncodedIff(logs: seq<LogEntry>, now: int)
    ensures Load(Parsed(Arr(EncodeAll(logs))), now) == logs
        <==> forall i :: 0 <= i < |logs| ==> RoundTrips(logs[i], now)
    decreases |logs|
  {
    if logs != [] {
      var items := EncodeAll(logs);
      assert items[0] == EncodeEntry(logs[0]);
      assert items[1..] == EncodeAll(logs[1..]);
      DecodeEncodedEntry(logs[0], now);
      LoadEncodedIff(logs[1..], now);
      var rest := DecodeItems(items[1..], now);
      if forall i :: 0 <= i < |logs| ==> RoundTrips(logs[i], now) {
        assert forall i :: 0 <= i < |logs[1..]| ==> RoundTrips(logs[1..][i], now) by {
          forall i | 0 <= i < |logs[1..]| ensures RoundTrips(logs[1..][i], now) {
            assert logs[1..][i] == logs[i + 1];
          }
        }
        assert [logs[0]] + logs[1..] == logs;
      } else if DecodeItem(items[0], now).None? {
        assert |rest| <= |logs| - 1;
      } else if !RoundTrips(logs[0], now) {
        assert DecodeItems(items, now)[0] != logs[0];
      } else {
        var i :| 0 <= i < |logs| && !RoundTrips(logs[i], now);
        assert i != 0;
        assert !RoundTrips(logs[1..][i - 1], now);
      }
    }
  }

  // ---------------------------------------------------------------------
  // Store operations

  /** `addLog`: the entry is appended as given, with no id check, so a
      duplicate id is stored a second time. */
  function AddLog(logs: seq<LogEntry>, entry: LogEntry): (r: seq<LogEntry>)
    ensures |r| == |logs| + 1
    ensures r[..|logs|] == logs
    ensures r[|logs|] == entry
  {
    logs + [entry]
  }

  /** `removeLog`: every entry with the id goes; the others stay in order. */
  function RemoveLog(logs: seq<LogEntry>, id: Value): (r: seq<LogEntry>)
    ensures |r| <= |logs|
    ensures forall e :: e in r <==> e in logs && e.id != id
    ensures (forall i :: 0 <= i < |logs| ==> logs[i].id != id) ==> r == logs
  {
    if logs == [] then []
    else if logs[0].id != id then [logs[0]] + RemoveLog(logs[1..], id)
    else RemoveLog(logs[1..], id)
  }

  /** `getLog`: the first entry carrying the id, or nothing. */
  function GetLog(logs: seq<LogEntry>, id: Value): (r: Option<LogEntry>)
    ensures r.None? <==> forall i :: 0 <= i < |logs| ==> logs[i].id != id
    ensures r.Some? ==> exists i :: 0 <= i < |logs| && logs[i] == r.value && r.value.id == id
                                    && forall j :: 0 <= j < i ==> logs[j].id != id
  {
    if logs == [] then None
    else if logs[0].id == id then Some(logs[0])
    else
      var r := GetLog(logs[1..], id);
      if r.Some? then
        var i :| 0 <= i < |logs[1..]| && logs[1..][i] == r.value && r.value.id == id
                 && forall j :: 0 <= j < i ==> logs[1..][j].id != id;
        assert logs[i + 1] == r.value;
        assert forall j :: 0 <= j < i + 1 ==> logs[j].id != id by {
          forall j | 0 <= j < i + 1 ensures logs[j].id != id {
            if j > 0 { assert logs[j] == logs[1..][j - 1]; }
          }
        }
        r
      else r
  }

  /** Removal keeps relative order: it maps a concatenation to the
      concatenation of the removals. */
  lemma {:induction false} RemoveLogAppend(a: seq<LogEntry>, b: seq<LogEntry>, id: Value)
    ensures RemoveLog(a + b, id) == RemoveLog(a, id) + RemoveLog(b, id)
    decreases |a|
  {
    if a == [] {
      assert a + b == b;
    } else {
      assert (a + b)[0] == a[0];
      assert (a + b)[1..] == a[1..] + b;
      RemoveLogAppend(a[1..], b, id);
    }
  }

  /** After removing an id, looking it up finds nothing. */
  lemma RemoveThenGet(logs: seq<LogEntry>, id: Value)
    ensures GetLog(RemoveLog(logs, id), id).None?
  {
  }

  /** Removing one id does not change what a lookup of any other id finds. */
  lemma {:induction false} RemoveKeepsOthers(logs: seq<LogEntry>, id: Value, other: Value)
    requires other != id
    ensures GetLog(RemoveLog(logs, id), other) == GetLog(logs, other)
    decreases |logs|
  {
    if logs != [] {
      RemoveKeepsOthers(logs[1..], id, other);
      if logs[0].id != id {
        var r := [logs[0]] + RemoveLog(logs[1..], id);
        assert r[1..] == RemoveLog(logs[1..], id);
      }
    }
  }

  /** An appended entry is found by its id unless an older entry already
      carries that id, in which case the older one is still found. */
  lemma {:induction false} AddThenGet(logs: seq<LogEntry>, entry: LogEntry)
    ensures GetLog(AddLog(logs, entry), entry.id)
         == (if GetLog(logs, entry.id).Some? then GetLog(logs, entry.id) else Some(entry))
    decreases |logs|
  {
    if logs != [] {
      assert (logs + [entry])[1..] == logs[1..] + [entry];
      AddThenGet(logs[1..], entry);
    }
  }

  /** Adding an entry and removing its id is the same as removing the id. */
  lemma AddThenRemove(logs: seq<LogEntry>, entry: LogEntry)
    ensures RemoveLog(AddLog(logs, entry), entry.id) == RemoveLog(logs, entry.id)
  {
    RemoveLogAppend(logs, [entry], entry.id);
    assert RemoveLog([entry], entry.id) == [];
  }
}
