/**
 The structlog processor that turns error and critical log records into
 incident records (backend/app/logger.py).

 For a record logged with method `error` or `critical`, the processor tags the
 event dictionary as an incident of the backend service, renames `event` to
 `incident_type` and `level` to `severity`, and hands back the very dictionary
 it was given. Records logged with any other method pass through untouched.
 */
module Logger {
  import opened EventDicts

  /** The log methods whose records become incidents. */
  const IncidentMethods: set<string> := {"error", "critical"}

  const IncidentTag: Value := Str("incident")
  const ServiceName: Value := Str("incident-backend")

  /** The keys the processor writes or removes; every other key is left alone. */
  const IncidentKeys: set<string> := {"type", "service", "event", "level", "incident_type", "severity"}

  predicate IsIncidentMethod(methodName: string) {
    methodName in IncidentMethods
  }

  /** `if src in d: d[dst] = d.pop(src)`. */
  function Rename(e: seq<Entry>, src: string, dst: string): seq<Entry> {
    match Lookup(e, src)
    case Some(v) => SetKey(RemoveKey(e, src), dst, v)
    case None => e
  }

  /** The event dictionary the processor leaves behind. */
  function Formatted(methodName: string, e: seq<Entry>): seq<Entry> {
    if IsIncidentMethod(methodName) then
      var tagged := SetKey(SetKey(e, "type", IncidentTag), "service", ServiceName);
      Rename(Rename(tagged, "event", "incident_type"), "level", "severity")
    else
      e
  }

  /** `format_incident(logger, method_name, event_dict)`: updates the
      dictionary in place and returns that same dictionary. The `logger`
      argument is not used by the processor and is not modelled. */
  method FormatIncident(methodName: string, eventDict: EventDict) returns (r: EventDict)
    requires eventDict.Valid()
    modifies eventDict
    ensures r == eventDict && r.Valid()
    ensures r.entries == Formatted(methodName, old(eventDict.entries))
    ensures !IsIncidentMethod(methodName) ==> r.entries == old(eventDict.entries)
  {
    if methodName in IncidentMethods {
      eventDict.Set("type", IncidentTag);
      eventDict.Set("service", ServiceName);

      var hasEvent := eventDict.Contains("event");
      if hasEvent {
        var popped := eventDict.Pop("event");
        eventDict.Set("incident_type", popped.value);
      }

      var hasLevel := eventDict.Contains("level");
      if hasLevel {
        var popped := eventDict.Pop("level");
        eventDict.Set("severity", popped.value);
      }
    }
    r := eventDict;
  }

  // ---------------------------------------------------------------------------
  // Renaming one key

  /** After a rename, `src` is gone, `dst` holds the value `src` had (or keeps
      its own value when `src` was absent), and every other key is as before. */
  lemma RenameLookup(e: seq<Entry>, src: string, dst: string, j: string)
    requires DistinctKeys(e) && src != dst
    ensures DistinctKeys(Rename(e, src, dst))
    ensures Lookup(Rename(e, src, dst), j) ==
              if j == src then None
              else if j == dst then (if HasKey(e, src) then Lookup(e, src) else Lookup(e, dst))
              else Lookup(e, j)
  {
    LookupHasKey(e, src);
    match Lookup(e, src)
    case Some(v) =>
      RemoveKeyDistinct(e, src);
      SetKeyDistinct(RemoveKey(e, src), dst, v);
      SetKeyLookup(RemoveKey(e, src), dst, v, j);
      RemoveKeyLookup(e, src, j);
    case None =>
  }

  lemma RenameOthers(e: seq<Entry>, src: string, dst: string, ks: set<string>)
    requires src in ks && dst in ks
    ensures Others(Rename(e, src, dst), ks) == Others(e, ks)
  {
    match Lookup(e, src)
    case Some(v) =>
      SetKeyOthers(RemoveKey(e, src), dst, v, ks);
      RemoveKeyOthers(e, src, ks);
    case None =>
  }

  // ---------------------------------------------------------------------------
  // Properties of the processor

  /** An error or critical record is tagged as an incident of the backend
      service (whatever `type` and `service` held before), `event` and `level`
      are gone, `incident_type` and `severity` carry their old values (or keep
      their own when the source key was absent; no key is created then), and
      every key outside the six the processor touches keeps its value. The
      result is again a dictionary. */
  lemma FormatIncidentFields(methodName: string, e: seq<Entry>)
    requires DistinctKeys(e) && IsIncidentMethod(methodName)
    ensures DistinctKeys(Formatted(methodName, e))
    ensures Lookup(Formatted(methodName, e), "type") == Some(IncidentTag)
    ensures Lookup(Formatted(methodName, e), "service") == Some(ServiceName)
    ensures Lookup(Formatted(methodName, e), "event") == None
    ensures Lookup(Formatted(methodName, e), "level") == None
    ensures Lookup(Formatted(methodName, e), "incident_type") ==
              if HasKey(e, "event") then Lookup(e, "event") else Lookup(e, "incident_type")
    ensures Lookup(Formatted(methodName, e), "severity") ==
              if HasKey(e, "level") then Lookup(e, "level") else Lookup(e, "severity")
    ensures forall k :: k !in IncidentKeys ==> Lookup(Formatted(methodName, e), k) == Lookup(e, k)
  {
    var t := SetKey(e, "type", IncidentTag);
    var ts := SetKey(t, "service", ServiceName);
    var r1 := Rename(ts, "event", "incident_type");
    SetKeyDistinct(e, "type", IncidentTag);
    SetKeyDistinct(t, "service", ServiceName);
    forall k ensures Lookup(Formatted(methodName, e), k) == PromisedLookup(e, k) {
      SetKeyLookup(e, "type", IncidentTag, k);
      SetKeyLookup(t, "service", ServiceName, k);
      RenameLookup(ts, "event", "incident_type", k);
      RenameLookup(r1, "level", "severity", k);
      LookupHasKey(e, "event");
      LookupHasKey(ts, "event");
      LookupHasKey(e, "level");
      LookupHasKey(r1, "level");
      SetKeyLookup(e, "type", IncidentTag, "event");
      SetKeyLookup(t, "service", ServiceName, "event");
      SetKeyLookup(e, "type", IncidentTag, "level");
      SetKeyLookup(t, "service", ServiceName, "level");
      RenameLookup(ts, "event", "incident_type", "level");
    }
    RenameLookup(ts, "event", "incident_type", "");
    RenameLookup(r1, "level", "severity", "");
  }

  /** What `FormatIncidentFields` promises of key `k`, as one value. */
  function PromisedLookup(e: seq<Entry>, k: string): Option<Value> {
    if k == "type" then Some(IncidentTag)
    else if k == "service" then Some(ServiceName)
    else if k == "event" || k == "level" then None
    else if k == "incident_type" then
      (if HasKey(e, "event") then Lookup(e, "event") else Lookup(e, "incident_type"))
    else if k == "severity" then
      (if HasKey(e, "level") then Lookup(e, "level") else Lookup(e, "severity"))
    else Lookup(e, k)
  }

  /** The same facts on the unordered view: outside the six keys the processor
      touches, the dictionary is unchanged, nested values included. */
  lemma FormatIncidentMap(methodName: string, e: seq<Entry>)
    requires DistinctKeys(e)
    ensures ToMap(Formatted(methodName, e)) - IncidentKeys == ToMap(e) - IncidentKeys
    ensures !IsIncidentMethod(methodName) ==> ToMap(Formatted(methodName, e)) == ToMap(e)
  {
    if IsIncidentMethod(methodName) {
      FormatIncidentFields(methodName, e);
      SameLookupsSameMap(Formatted(methodName, e), e, IncidentKeys);
    }
  }

  /** The entries outside the six touched keys come out in their original
      order with their original values. */
  lemma FormatIncidentOthers(methodName: string, e: seq<Entry>)
    ensures Others(Formatted(methodName, e), IncidentKeys) == Others(e, IncidentKeys)
  {
    if IsIncidentMethod(methodName) {
      var t := SetKey(e, "type", IncidentTag);
      var ts := SetKey(t, "service", ServiceName);
      SetKeyOthers(e, "type", IncidentTag, IncidentKeys);
      SetKeyOthers(t, "service", ServiceName, IncidentKeys);
      RenameOthers(ts, "event", "incident_type", IncidentKeys);
      RenameOthers(Rename(ts, "event", "incident_type"), "level", "severity", IncidentKeys);
    }
  }

  /** Running the processor a second time with the same method changes nothing. */
  lemma FormatIncidentIdempotent(methodName: string, e: seq<Entry>)
    requires DistinctKeys(e)
    ensures Formatted(methodName, Formatted(methodName, e)) == Formatted(methodName, e)
  {
    if IsIncidentMethod(methodName) {
      var r := Formatted(methodName, e);
      FormatIncidentFields(methodName, e);
      SetKeySame(r, "type", IncidentTag);
      SetKeySame(r, "service", ServiceName);
    }
  }

  /** Renaming a key of the front part to a key absent everywhere moves the
      value to a new last entry. */
  lemma RenameToEnd(p: seq<Entry>, s: seq<Entry>, src: string, dst: string, v: Value)
    requires Lookup(p, src) == Some(v)
    requires !HasKey(p, dst) && !HasKey(s, dst)
    ensures Rename(p + s, src, dst) == RemoveKey(p, src) + s + [(dst, v)]
  {
    LookupHasKey(p, src);
    LookupPrefix(p, s, src);
    RemoveKeyPrefix(p, s, src);
    RemoveKeyHasKey(p, src, dst);
    KeysConcat(RemoveKey(p, src), s);
    SetKeyAbsent(RemoveKey(p, src) + s, dst, v);
  }

  /** Removing `event` and then `level` from a record that holds none of the
      other four touched keys leaves exactly its untouched entries. */
  lemma RemoveBothIsOthers(e: seq<Entry>)
    requires DistinctKeys(e)
    requires !HasKey(e, "type") && !HasKey(e, "service")
    requires !HasKey(e, "incident_type") && !HasKey(e, "severity")
    ensures RemoveKey(RemoveKey(e, "event"), "level") == Others(e, IncidentKeys)
  {
    RemoveKeyIsOthers(e, "event");
    RemoveKeyDistinct(e, "event");
    RemoveKeyIsOthers(RemoveKey(e, "event"), "level");
    OthersOthers(e, {"event"}, {"level"});
    OthersIgnoresAbsent(e, {"event", "level"}, {"type", "service", "incident_type", "severity"});
    assert {"event"} + {"level"} == {"event", "level"};
    assert {"event", "level"} + {"type", "service", "incident_type", "severity"} == IncidentKeys;
  }

  /** The record as structlog builds it: `event` first, `level` added by
      `add_log_level`, and none of the incident keys yet. The renamed keys
      move to the end, after the two tags, and the other keys close up in
      their original order. */
  lemma FormatIncidentLayout(methodName: string, e: seq<Entry>, ev: Value, lv: Value)
    requires DistinctKeys(e) && IsIncidentMethod(methodName)
    requires Lookup(e, "event") == Some(ev) && Lookup(e, "level") == Some(lv)
    requires !HasKey(e, "type") && !HasKey(e, "service")
    requires !HasKey(e, "incident_type") && !HasKey(e, "severity")
    ensures Formatted(methodName, e) ==
              Others(e, IncidentKeys) +
              [("type", IncidentTag), ("service", ServiceName), ("incident_type", ev), ("severity", lv)]
  {
    var t, s := ("type", IncidentTag), ("service", ServiceName);
    var it := ("incident_type", ev);

    SetKeyAbsent(e, "type", IncidentTag);
    KeysConcat(e, [t]);
    SetKeyAbsent(e + [t], "service", ServiceName);
    var ts := SetKey(SetKey(e, "type", IncidentTag), "service", ServiceName);
    assert ts == e + [t, s];

    assert Keys([t, s]) == ["type", "service"];
    RenameToEnd(e, [t, s], "event", "incident_type", ev);
    var p1 := RemoveKey(e, "event");
    var r1 := Rename(ts, "event", "incident_type");
    assert r1 == p1 + [t, s, it];

    RemoveKeyLookup(e, "event", "level");
    RemoveKeyHasKey(e, "event", "severity");
    assert Keys([t, s, it]) == ["type", "service", "incident_type"] by {
      assert Keys([it]) == ["incident_type"];
      assert Keys([s, it]) == ["service"] + Keys([it]);
    }
    RenameToEnd(p1, [t, s, it], "level", "severity", lv);
    RemoveBothIsOthers(e);
  }
}
