/**
 * The message log (molequeue/app/logger.cpp, and the older
 * molequeue/logger.cpp whose handleNewLogEntry, trimLog, handleNewError and
 * resetNewErrorCount have the same bodies): the entries kept, oldest
 * first, at most maxEntries of them; the number of errors since the last
 * reset; and the signals emitted, in order. The two revisions differ in
 * how they read the log file, which is modelled for each.
 */
module Logging {
  import opened Wrappers
  import opened IdTypes
  import opened JsonValue
  import ListOps

  datatype EntryType = DebugMessage | Notification | Warning | Error

  /** A LogEntry: its type, message and job id, and the time the logger stamped on it. */
  datatype LogEntry = LogEntry(entryType: EntryType, message: string, moleQueueId: IdType, timeStamp: int)

  datatype Signal =
    | NewDebugMessage(entry: LogEntry)
    | NewNotification(entry: LogEntry)
    | NewWarning(entry: LogEntry)
    | NewError(entry: LogEntry)
    | FirstNewErrorOccurred
    | NewLogEntry(entry: LogEntry)
    | NewErrorCountReset

  const DefaultMaxEntries: int := 1000

  /** The signal of the entry's own type, emitted by its handleNew* function. */
  function TypeSignal(e: LogEntry): (s: Signal)
    ensures s.NewDebugMessage? || s.NewNotification? || s.NewWarning? || s.NewError?
    ensures s.entry == e
    ensures s.NewError? <==> e.entryType == Error
  {
    match e.entryType
    case DebugMessage => NewDebugMessage(e)
    case Notification => NewNotification(e)
    case Warning => NewWarning(e)
    case Error => NewError(e)
  }

  /**
   * The signals handleNewLogEntry emits for an entry, given the error count
   * before it: the entry's own signal, firstNewErrorOccurred for the error
   * that takes the count to 1 while errors are not silenced, then
   * newLogEntry.
   */
  function EntrySignals(e: LogEntry, errorsBefore: int, silenced: bool): seq<Signal> {
    [TypeSignal(e)]
    + (if e.entryType == Error && !silenced && errorsBefore + 1 == 1 then [FirstNewErrorOccurred] else [])
    + [NewLogEntry(e)]
  }

  /**
   * Every entry is announced first by its own signal and last by
   * newLogEntry; firstNewErrorOccurred comes exactly for an error met at
   * count 0 while errors are not silenced.
   */
  lemma EntrySignalsOrder(e: LogEntry, errorsBefore: int, silenced: bool)
    ensures var s := EntrySignals(e, errorsBefore, silenced);
      && 2 <= |s| <= 3 && s[0] == TypeSignal(e) && s[|s| - 1] == NewLogEntry(e)
      && (FirstNewErrorOccurred in s <==> e.entryType == Error && errorsBefore == 0 && !silenced)
  {
  }

  /** The bound trimLog keeps the log to: maxEntries, and nothing for a negative one. */
  function Bound(maxEntries: int): nat {
    if maxEntries < 0 then 0 else maxEntries
  }

  /** The newest n entries of a log, in their order: what trimLog leaves. */
  function Newest<T>(log: seq<T>, n: nat): seq<T> {
    if |log| > n then log[|log| - n..] else log
  }

  /**
   * Trimming keeps min(|log|, n) entries, drops only the oldest ones, keeps
   * the rest in order, and keeps the newest entry whenever n > 0.
   */
  lemma NewestFacts<T>(log: seq<T>, n: nat)
    ensures var r := Newest(log, n);
      && |r| == (if |log| < n then |log| else n)
      && r == log[|log| - |r|..]
      && (n > 0 && log != [] ==> r[|r| - 1] == log[|log| - 1])
  {
  }

  /** Trimming twice to the same bound is trimming once. */
  lemma NewestIdempotent<T>(log: seq<T>, n: nat)
    ensures Newest(Newest(log, n), n) == Newest(log, n)
  {
  }

  /**
   * trimLog as written erases size - maxEntries entries from the front
   * whenever the log holds more than maxEntries.
   */
  function ErasedAsWritten(size: nat, maxEntries: int): int {
    if size > maxEntries then size - maxEntries else 0
  }

  /**
   * With a negative maxEntries, trimLog as written is asked to erase more
   * entries than the log holds: begin() + (size - maxEntries) lies past
   * end().
   */
  lemma NegativeBoundErasesPastEnd(size: nat, maxEntries: int)
    requires maxEntries < 0
    ensures ErasedAsWritten(size, maxEntries) > size
  {
  }

  /** A log file of the application revision can set a negative maxEntries: -2.0 reads as -1. */
  lemma NegativeBoundLoads()
    ensures AppMaxEntries(JObject(map["maxEntries" := JReal(-2.0)])) == -1
  {
    assert Get(JObject(map["maxEntries" := JReal(-2.0)]), "maxEntries") == JReal(-2.0);
  }

  // ---- the log file ----

  /**
   * The application revision's maxEntries: a number in the file is
   * rounded as static_cast<int>(d + 0.5) does; otherwise the default stays.
   */
  function AppMaxEntries(root: Json): int {
    var v := Get(root, "maxEntries");
    if IsNumeric(v) then Truncate(ToReal(v) + 0.5) else DefaultMaxEntries
  }

  /** The application revision's entries: the objects of the "entries" array, in order. */
  function AppEntries(root: Json): (r: seq<Json>)
    ensures forall i :: 0 <= i < |r| ==> r[i].JObject?
  {
    var v := Get(root, "entries");
    if v.JArray? then
      var r := ListOps.Filter(v.items, (j: Json) => j.JObject?);
      assert forall i :: 0 <= i < |r| ==> r[i] in r;
      r
    else []
  }

  /** The application revision's destructor: maxEntries as a double, and the entries' objects. */
  function AppLogJson(maxEntries: int, entries: seq<Json>): Json {
    JObject(map["maxEntries" := JReal(maxEntries as real), "entries" := JArray(entries)])
  }

  /**
   * A log the application revision writes it reads back: the entries
   * always, and maxEntries exactly when it is not negative (-3 is written as
   * -3.0 and read as -2).
   */
  lemma {:induction false} AppLogRoundTrip(maxEntries: int, entries: seq<Json>)
    requires forall i :: 0 <= i < |entries| ==> entries[i].JObject?
    ensures AppEntries(AppLogJson(maxEntries, entries)) == entries
    ensures AppMaxEntries(AppLogJson(maxEntries, entries)) == maxEntries <==> maxEntries >= 0
  {
    var root := AppLogJson(maxEntries, entries);
    assert "entries"[0] != "maxEntries"[0];
    assert Get(root, "entries") == JArray(entries);
    assert Get(root, "maxEntries") == JReal(maxEntries as real);
    FilterKeepsAll(entries);
    var n := AppMaxEntries(root);
    if maxEntries < 0 {
      assert n > maxEntries;
    }
  }

  /** Filtering objects out of a list of objects keeps the list. */
  lemma {:induction false} FilterKeepsAll(entries: seq<Json>)
    requires forall i :: 0 <= i < |entries| ==> entries[i].JObject?
    ensures ListOps.Filter(entries, (j: Json) => j.JObject?) == entries
    decreases |entries|
  {
    if entries != [] {
      FilterKeepsAll(entries[..|entries| - 1]);
      assert entries[..|entries| - 1] + [entries[|entries| - 1]] == entries;
    }
  }

  /** Json::Value::asInt of an integral value: None when it does not fit an int, where JsonCpp throws. */
  function AsInt(v: Json): (r: Option<int>)
    requires IsIntegral(v)
    ensures r.Some? <==> -0x8000_0000 <= IntegralValue(v) < 0x8000_0000
    ensures r.Some? ==> r.value == IntegralValue(v)
  {
    var n := IntegralValue(v);
    if -0x8000_0000 <= n < 0x8000_0000 then Some(n) else None
  }

  /**
   * The older revision's maxEntries: adopted only when the file holds an
   * integral number (a double such as 10.0 is ignored); None where asInt
   * throws.
   */
  function LegacyMaxEntries(root: Json): (r: Option<int>)
    ensures !IsIntegral(Get(root, "maxEntries")) ==> r == Some(DefaultMaxEntries)
  {
    var v := Get(root, "maxEntries");
    if IsIntegral(v) then AsInt(v) else Some(DefaultMaxEntries)
  }

  /** The older revision's entries: every element of the "entries" array. */
  function LegacyEntries(root: Json): (r: seq<Json>)
    ensures Get(root, "entries").JArray? ==> r == Get(root, "entries").items
  {
    var v := Get(root, "entries");
    if v.JArray? then v.items else []
  }

  /** The older revision's destructor: maxEntries as an int, and the entries' objects. */
  function LegacyLogJson(maxEntries: int, entries: seq<Json>): Json {
    JObject(map["maxEntries" := JInt(maxEntries), "entries" := JArray(entries)])
  }

  /** A log the older revision writes it reads back, maxEntries included, for every int. */
  lemma LegacyLogRoundTrip(maxEntries: int, entries: seq<Json>)
    requires -0x8000_0000 <= maxEntries < 0x8000_0000
    ensures LegacyEntries(LegacyLogJson(maxEntries, entries)) == entries
    ensures LegacyMaxEntries(LegacyLogJson(maxEntries, entries)) == Some(maxEntries)
  {
    assert "entries"[0] != "maxEntries"[0];
  }

  /** A whole-number double in the older revision's file is not integral, so the default stays. */
  lemma LegacyIgnoresDoubles(d: real, entries: seq<Json>)
    ensures LegacyMaxEntries(JObject(map["maxEntries" := JReal(d), "entries" := JArray(entries)])) == Some(DefaultMaxEntries)
  {
    assert "entries"[0] != "maxEntries"[0];
  }

  // ---- the logger ----

  class Logger {
    var log: seq<LogEntry>
    var maxEntries: int
    var newErrorCount: int
    var silenceNewErrors: bool
    var signals: seq<Signal>

    /**
     * The logger as the constructor leaves it: the bound and the entries
     * read from the log file (DefaultMaxEntries and none without one), no
     * new errors, errors not silenced. The entries are not trimmed.
     */
    constructor (maxEntries: int, entries: seq<LogEntry>)
      ensures log == entries && this.maxEntries == maxEntries
      ensures newErrorCount == 0 && !silenceNewErrors && signals == []
    {
      log := entries;
      this.maxEntries := maxEntries;
      newErrorCount := 0;
      silenceNewErrors := false;
      signals := [];
    }

    /** trimLog: the oldest entries go until at most maxEntries are left (none for a negative bound). */
    method TrimLog()
      modifies this
      ensures log == Newest(old(log), Bound(maxEntries))
      ensures maxEntries == old(maxEntries) && newErrorCount == old(newErrorCount)
      ensures silenceNewErrors == old(silenceNewErrors) && signals == old(signals)
    {
      if |log| > maxEntries {
        log := log[|log| - Bound(maxEntries)..];
      }
    }

    /**
     * handleNewLogEntry: the entry is stamped with the time, appended, the
     * log trimmed, its signals emitted and, for an error, the error count
     * raised by one.
     */
    method HandleNewLogEntry(entry: LogEntry, now: int)
      modifies this
      ensures var e := entry.(timeStamp := now);
        && log == Newest(old(log) + [e], Bound(maxEntries))
        && signals == old(signals) + EntrySignals(e, old(newErrorCount), silenceNewErrors)
      ensures newErrorCount == old(newErrorCount) + (if entry.entryType == Error then 1 else 0)
      ensures maxEntries == old(maxEntries) && silenceNewErrors == old(silenceNewErrors)
    {
      var e := entry.(timeStamp := now);
      log := log + [e];
      TrimLog();
      match e.entryType {
        case DebugMessage => signals := signals + [NewDebugMessage(e)];
        case Notification => signals := signals + [NewNotification(e)];
        case Warning => signals := signals + [NewWarning(e)];
        case Error => HandleNewError(e);
      }
      signals := signals + [NewLogEntry(e)];
    }

    /**
     * handleNewError: the count goes up by one, newError is emitted, and
     * firstNewErrorOccurred follows when the count is now 1 and errors are
     * not silenced.
     */
    method HandleNewError(e: LogEntry)
      modifies this
      ensures newErrorCount == old(newErrorCount) + 1
      ensures signals == old(signals) + [NewError(e)] +
        (if !silenceNewErrors && newErrorCount == 1 then [FirstNewErrorOccurred] else [])
      ensures log == old(log) && maxEntries == old(maxEntries) && silenceNewErrors == old(silenceNewErrors)
    {
      newErrorCount := newErrorCount + 1;
      signals := signals + [NewError(e)];
      if !silenceNewErrors && newErrorCount == 1 {
        signals := signals + [FirstNewErrorOccurred];
      }
    }

    /** resetNewErrorCount: nothing at 0; otherwise newErrorCountReset is emitted and the count is 0. */
    method ResetNewErrorCount()
      modifies this
      ensures newErrorCount == 0
      ensures signals == old(signals) + (if old(newErrorCount) == 0 then [] else [NewErrorCountReset])
      ensures log == old(log) && maxEntries == old(maxEntries) && silenceNewErrors == old(silenceNewErrors)
    {
      if newErrorCount == 0 {
        return;
      }
      signals := signals + [NewErrorCountReset];
      newErrorCount := 0;
    }

    /** setMaxEntries: the new bound, and the log trimmed to it at once. */
    method SetMaxEntries(max: int)
      modifies this
      ensures maxEntries == max && log == Newest(old(log), Bound(max))
      ensures newErrorCount == old(newErrorCount) && silenceNewErrors == old(silenceNewErrors) && signals == old(signals)
    {
      maxEntries := max;
      TrimLog();
    }

    /** silenceNewErrors: while set, firstNewErrorOccurred is not emitted. */
    method SilenceNewErrors(silence: bool)
      modifies this
      ensures silenceNewErrors == silence
      ensures log == old(log) && maxEntries == old(maxEntries) && newErrorCount == old(newErrorCount) && signals == old(signals)
    {
      silenceNewErrors := silence;
    }

    /** clear: no entries are left; nothing else changes. */
    method Clear()
      modifies this
      ensures log == []
      ensures maxEntries == old(maxEntries) && newErrorCount == old(newErrorCount)
      ensures silenceNewErrors == old(silenceNewErrors) && signals == old(signals)
    {
      log := [];
    }
  }
}
