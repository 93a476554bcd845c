// The in-memory log store both services keep for their chat UI (the graph and the
// vector service carry the same `LogEntry` and `LogCollector`). Entries are kept in
// a bounded window of the newest ones, and a counter of entries added since the last
// clear lets pollers ask for what they have not seen. The entry's uuid and timestamp
// are parameters; the WebSocket streaming is not modelled.
module LogCollector {
  import opened Base
  import opened Seqs

  const DefaultMaxEntries: int := 1000

  datatype LogEntry = LogEntry(
    id: string,
    timestamp: string,
    logType: string,
    status: string,
    title: string,
    message: string,
    details: map<string, string>)

  /** `LogEntry(...)`: a missing or empty `details` becomes `{}`. */
  function NewEntry(id: string, timestamp: string, logType: string, status: string, title: string, message: string,
                    details: Option<map<string, string>>): (e: LogEntry)
    ensures e.details == (if details.Some? then details.value else map[])
    ensures e.logType == logType && e.status == status && e.title == title && e.message == message
  {
    LogEntry(id, timestamp, logType, status, title, message, details.GetOr(map[]))
  }

  /** A value of the dict `to_dict` returns. */
  datatype Field = Text(text: string) | Details(fields: map<string, string>)

  const Keys: set<string> := {"id", "timestamp", "type", "status", "title", "message", "details"}

  function ToDict(e: LogEntry): (d: map<string, Field>)
    ensures d.Keys == Keys
  {
    map["id" := Text(e.id), "timestamp" := Text(e.timestamp), "type" := Text(e.logType),
        "status" := Text(e.status), "title" := Text(e.title), "message" := Text(e.message),
        "details" := Details(e.details)]
  }

  /** Reading an entry back from its dict. */
  function FromDict(d: map<string, Field>): Option<LogEntry> {
    if Keys <= d.Keys
       && d["id"].Text? && d["timestamp"].Text? && d["type"].Text? && d["status"].Text?
       && d["title"].Text? && d["message"].Text? && d["details"].Details?
    then Some(LogEntry(d["id"].text, d["timestamp"].text, d["type"].text, d["status"].text,
                       d["title"].text, d["message"].text, d["details"].fields))
    else None
  }

  /** The dict carries all seven fields: nothing of the entry is lost. */
  lemma ToDictRoundTrip(e: LogEntry)
    ensures FromDict(ToDict(e)) == Some(e)
  {
  }

  /** What the list becomes after an append: `entries[-max:]` once it is longer than `max`.
      With `max == 0` the slice `[-0:]` keeps everything; a negative `max` drops the first
      `-max` entries. */
  function Window<T>(entries: seq<T>, maxEntries: int): seq<T> {
    if |entries| > maxEntries then SliceFrom(entries, -maxEntries) else entries
  }

  /** The window keeps a suffix: all of it when `max == 0`, the last `max` entries when
      `max` is positive, and it drops the first `-max` entries when `max` is negative. */
  lemma WindowShape<T>(entries: seq<T>, maxEntries: int)
    ensures var r := Window(entries, maxEntries);
      && |r| <= |entries| && r == entries[|entries| - |r|..]
      && (maxEntries >= 1 ==> |r| == Min(|entries|, maxEntries))
      && (maxEntries == 0 ==> r == entries)
      && (maxEntries < 0 ==> |r| == Max(0, |entries| + maxEntries))
  {
  }

  /** How many entries the window holds after `n` additions since the last clear. */
  function RetainedCount(n: nat, maxEntries: int): nat {
    if maxEntries >= 1 then Min(n, maxEntries) else if maxEntries == 0 then n else 0
  }

  /** Adding an entry keeps the window the newest `RetainedCount` entries of the log. */
  lemma WindowAfterAdd<T>(entries: seq<T>, log: seq<T>, entry: T, maxEntries: int)
    requires |entries| == RetainedCount(|log|, maxEntries) && entries == log[|log| - |entries|..]
    ensures var w := Window(entries + [entry], maxEntries);
      && |w| == RetainedCount(|log| + 1, maxEntries)
      && w == (log + [entry])[|log| + 1 - |w|..]
      && (maxEntries >= 1 ==> |w| <= maxEntries)
  {
    var grown := entries + [entry];
    assert grown == (log + [entry])[|log| + 1 - |grown|..];
    WindowShape(grown, maxEntries);
  }

  /** The entries `get_entries_since(index)` returns from the window `entries` when
      `counter` entries were added: the slice from `index - (counter - len(entries))`,
      clamped at 0. */
  function SinceSlice<T>(entries: seq<T>, counter: int, index: int): seq<T> {
    var offset := index - (counter - |entries|);
    SliceFrom(entries, if offset < 0 then 0 else offset)
  }

  /** Polling returns exactly the entries whose position among all those added since the
      last clear is at least `index`, as far as the window still holds them: everything
      held when `index` is at or before the oldest one held, nothing once `index` reaches
      the counter. */
  lemma SinceWindow<T>(log: seq<T>, entries: seq<T>, index: int)
    requires |entries| <= |log| && entries == log[|log| - |entries|..]
    ensures var first := |log| - |entries|;
      && SinceSlice(entries, |log|, index) == log[Max(first, Min(index, |log|))..]
      && (index <= first ==> SinceSlice(entries, |log|, index) == entries)
      && (index >= |log| ==> SinceSlice(entries, |log|, index) == [])
  {
    var first := |log| - |entries|;
    var offset := index - first;
    if offset > 0 && offset <= |entries| {
      assert entries[offset..] == log[first + offset..];
    }
  }

  class Collector {
    var entries: seq<LogEntry>
    var maxEntries: int
    var counter: nat
    /** Every entry added since the last `clear`, evicted or not. */
    ghost var log: seq<LogEntry>

    ghost predicate Valid()
      reads this
    {
      && counter == |log|
      && |entries| == RetainedCount(|log|, maxEntries)
      && entries == log[|log| - |entries|..]
    }

    constructor (maxEntries: int)
      ensures Valid()
      ensures this.maxEntries == maxEntries && entries == [] && counter == 0 && log == []
    {
      this.maxEntries := maxEntries;
      entries := [];
      counter := 0;
      log := [];
    }

    method AddEntry(entry: LogEntry)
      requires Valid()
      modifies this
      ensures Valid()
      ensures maxEntries == old(maxEntries)
      ensures log == old(log) + [entry]
      ensures counter == old(counter) + 1
      ensures entries == Window(old(entries) + [entry], maxEntries)
      ensures maxEntries >= 1 ==> |entries| <= maxEntries
    {
      WindowAfterAdd(entries, log, entry, maxEntries);
      var grown := entries + [entry];
      if |grown| > maxEntries {
        grown := SliceFrom(grown, -maxEntries);
      }
      entries, counter, log := grown, counter + 1, log + [entry];
    }

    function Counter(): (n: nat)
      reads this
      requires Valid()
      ensures n == |log|
    {
      counter
    }

    /** `counter - len(entries)` is never negative: it counts the entries evicted since the
        last clear, and every one still held was added after them. */
    function Evicted(): (n: int)
      reads this
      requires Valid()
      ensures 0 <= n <= |log| && entries == log[n..]
    {
      counter - |entries|
    }

    function EntriesSince(index: int): (r: seq<map<string, Field>>)
      reads this
      requires Valid()
      ensures r == Map(ToDict, log[Max(|log| - |entries|, Min(index, |log|))..])
      ensures index >= counter ==> r == []
    {
      SinceWindow(log, entries, index);
      Map(ToDict, SinceSlice(entries, counter, index))
    }

    function GetAll(): (r: seq<map<string, Field>>)
      reads this
      requires Valid()
      ensures |r| == |entries|
      ensures forall k :: 0 <= k < |entries| ==> r[k] == ToDict(entries[k])
    {
      Map(ToDict, entries)
    }

    method Clear()
      requires Valid()
      modifies this
      ensures Valid()
      ensures maxEntries == old(maxEntries)
      ensures entries == [] && counter == 0 && log == []
    {
      entries := [];
      counter := 0;
      log := [];
    }
  }

  /** With a window of at least one, a poller that last saw counter `n - 1` receives
      exactly the newest entry. */
  lemma PollNewest(c: Collector)
    requires c.Valid() && c.maxEntries >= 1 && c.counter >= 1
    ensures c.EntriesSince(c.counter - 1) == [ToDict(c.log[|c.log| - 1])]
  {
    var tail := c.log[|c.log| - 1..];
    assert tail == [c.log[|c.log| - 1]];
  }
}
