/** The in-memory logger of internal/logger/logger.go: a level threshold, a
    bounded buffer of the most recent entries, listeners that are told of
    every accepted entry, and an optional output. Time stamps, the extra
    map and the JSON encoding of the output are not modelled. */
module Logging {

  import opened Types

  const LevelDebug: int := 0
  const LevelInfo: int := 1
  const LevelWarn: int := 2
  const LevelError: int := 3
  const LevelFatal: int := 4

  /** The name table; a level outside it has the empty name, as a Go map
      lookup of a missing key gives the zero value. */
  function LevelName(level: int): (name: string)
    ensures LevelDebug <= level <= LevelFatal <==> name != ""
  {
    if level == LevelDebug then "DEBUG"
    else if level == LevelInfo then "INFO"
    else if level == LevelWarn then "WARN"
    else if level == LevelError then "ERROR"
    else if level == LevelFatal then "FATAL"
    else ""
  }

  /** The five names are distinct, so a level can be read back from its name. */
  lemma LevelNamesDistinct(a: int, b: int)
    requires LevelDebug <= a <= LevelFatal && LevelDebug <= b <= LevelFatal
    ensures LevelName(a) == LevelName(b) <==> a == b
  {
  }

  predicate KnownLevelName(name: string)
  {
    name == "DEBUG" || name == "INFO" || name == "WARN" || name == "ERROR" || name == "FATAL"
  }

  predicate AllKnownLevels(s: seq<LogEntry>)
  {
    forall i :: 0 <= i < |s| ==> KnownLevelName(s[i].level)
  }

  /** Keeping the newest entries after appending one keeps every level
      name known. */
  lemma NewestKnown(s: seq<LogEntry>, e: LogEntry, max: nat)
    requires AllKnownLevels(s) && KnownLevelName(e.level)
    ensures AllKnownLevels(Newest(s + [e], max))
  {
    var t := s + [e];
    var r := Newest(t, max);
    forall i | 0 <= i < |r| ensures KnownLevelName(r[i].level) {
      var j := |t| - |r| + i;
      assert r[i] == t[j];
      if j < |s| {
        assert t[j] == s[j];
      } else {
        assert t[j] == e;
      }
    }
  }

  /** The entries of `s` whose level name is `level`, in order. */
  function WithLevel(s: seq<LogEntry>, level: string): (r: seq<LogEntry>)
    ensures |r| <= |s|
    ensures forall i :: 0 <= i < |r| ==> r[i].level == level && r[i] in s
  {
    if s == [] then []
    else if s[|s| - 1].level == level then WithLevel(s[..|s| - 1], level) + [s[|s| - 1]]
    else WithLevel(s[..|s| - 1], level)
  }

  /** The level filter distributes over concatenation. */
  lemma {:induction false} WithLevelAppend(a: seq<LogEntry>, b: seq<LogEntry>, level: string)
    ensures WithLevel(a + b, level) == WithLevel(a, level) + WithLevel(b, level)
    decreases |b|
  {
    if b == [] {
      assert a + b == a;
    } else {
      assert (a + b)[..|a + b| - 1] == a + b[..|b| - 1];
      WithLevelAppend(a, b[..|b| - 1], level);
    }
  }

  /** The entries of `s` whose source is `source`, in order. */
  function WithSource(s: seq<LogEntry>, source: string): (r: seq<LogEntry>)
    ensures |r| <= |s|
    ensures forall i :: 0 <= i < |r| ==> r[i].source == source && r[i] in s
  {
    if s == [] then []
    else if s[|s| - 1].source == source then WithSource(s[..|s| - 1], source) + [s[|s| - 1]]
    else WithSource(s[..|s| - 1], source)
  }

  /** The source filter distributes over concatenation. */
  lemma {:induction false} WithSourceAppend(a: seq<LogEntry>, b: seq<LogEntry>, source: string)
    ensures WithSource(a + b, source) == WithSource(a, source) + WithSource(b, source)
    decreases |b|
  {
    if b == [] {
      assert a + b == a;
    } else {
      assert (a + b)[..|a + b| - 1] == a + b[..|b| - 1];
      WithSourceAppend(a, b[..|b| - 1], source);
    }
  }

  /** No matching entry is left behind by the level filter. */
  lemma {:induction false} WithLevelComplete(s: seq<LogEntry>, level: string, e: LogEntry)
    requires e in s && e.level == level
    ensures e in WithLevel(s, level)
  {
    if s[|s| - 1] != e {
      assert e in s[..|s| - 1] by {
        var k :| 0 <= k < |s| && s[k] == e;
        assert s[..|s| - 1][k] == e;
      }
      WithLevelComplete(s[..|s| - 1], level, e);
    }
  }

  /** No matching entry is left behind by the source filter. */
  lemma {:induction false} WithSourceComplete(s: seq<LogEntry>, source: string, e: LogEntry)
    requires e in s && e.source == source
    ensures e in WithSource(s, source)
  {
    if s[|s| - 1] != e {
      assert e in s[..|s| - 1] by {
        var k :| 0 <= k < |s| && s[k] == e;
        assert s[..|s| - 1][k] == e;
      }
      WithSourceComplete(s[..|s| - 1], source, e);
    }
  }

  /** Asking for a name that is not one of the five level names finds
      nothing in a buffer filled by the logger. */
  lemma {:induction false} WithUnknownLevel(s: seq<LogEntry>, level: string)
    requires forall i :: 0 <= i < |s| ==> KnownLevelName(s[i].level)
    requires !KnownLevelName(level)
    ensures WithLevel(s, level) == []
  {
    if s != [] {
      WithUnknownLevel(s[..|s| - 1], level);
    }
  }

  /** The newest `max` entries of `s`. */
  function Newest(s: seq<LogEntry>, max: nat): (r: seq<LogEntry>)
    ensures |r| <= max && |r| <= |s|
    ensures forall i :: 0 <= i < |r| ==> r[i] == s[|s| - |r| + i]
    ensures |s| <= max ==> r == s
  {
    if |s| > max then s[|s| - max..] else s
  }

  predicate IsSuffix(a: seq<LogEntry>, b: seq<LogEntry>)
  {
    |a| <= |b| && b[|b| - |a|..] == a
  }

  lemma SuffixOfSuffix(a: seq<LogEntry>, b: seq<LogEntry>, k: nat)
    requires IsSuffix(a, b) && k <= |a|
    ensures IsSuffix(a[|a| - k..], b)
  {
    assert b[|b| - k..] == b[|b| - |a|..][|a| - k..];
  }

  lemma SuffixAppend(a: seq<LogEntry>, b: seq<LogEntry>, e: LogEntry)
    requires IsSuffix(a, b)
    ensures IsSuffix(a + [e], b + [e])
  {
    assert (b + [e])[|b| + 1 - |a| - 1..] == b[|b| - |a|..] + [e];
  }

  /** Dropping the first entry once the bound is exceeded by one keeps the
      newest entries. */
  lemma DropOldest(s: seq<LogEntry>, e: LogEntry, max: nat)
    requires |s| <= max
    ensures Newest(s + [e], max) == if |s| + 1 > max then (s + [e])[1..] else s + [e]
  {
  }

  lemma NewestSuffix(a: seq<LogEntry>, b: seq<LogEntry>, max: nat)
    requires IsSuffix(a, b)
    ensures IsSuffix(Newest(a, max), b)
  {
    if |a| > max {
      SuffixOfSuffix(a, b, max);
    }
  }

  class Logger {
    var level: int
    var hasOutput: bool
    var entries: seq<LogEntry>
    var maxEntries: int
    var listeners: nat
    /** Each accepted entry is handed to every listener registered at the
        time; the notifications are recorded as (listener, entry) pairs. */
    var notifications: seq<(nat, LogEntry)>
    /** The entries written to the output, in order. */
    var written: seq<LogEntry>
    /** Set once Fatal has ended the process. */
    var exited: bool
    /** Every entry ever accepted, oldest first. */
    ghost var accepted: seq<LogEntry>

    /** The buffer never exceeds its bound, holds only entries of the five
        levels, and is always the newest part of what was accepted. */
    ghost predicate Valid()
      reads this
    {
      && 0 <= maxEntries
      && |entries| <= maxEntries
      && AllKnownLevels(entries)
      && IsSuffix(entries, accepted)
    }

    /** New: an empty buffer of 1000 entries and no listener. */
    constructor (level: int, hasOutput: bool)
      ensures Valid()
      ensures this.level == level && this.hasOutput == hasOutput
      ensures entries == [] && maxEntries == 1000 && listeners == 0
      ensures notifications == [] && written == [] && !exited && accepted == []
    {
      this.level := level;
      this.hasOutput := hasOutput;
      entries := [];
      maxEntries := 1000;
      listeners := 0;
      notifications := [];
      written := [];
      exited := false;
      accepted := [];
    }

    method SetLevel(level: int)
      requires Valid()
      modifies this
      ensures Valid()
      ensures this.level == level
      ensures entries == old(entries) && maxEntries == old(maxEntries) && hasOutput == old(hasOutput)
      ensures listeners == old(listeners) && notifications == old(notifications)
      ensures written == old(written) && exited == old(exited) && accepted == old(accepted)
    {
      this.level := level;
    }

    method SetOutput(hasOutput: bool)
      requires Valid()
      modifies this
      ensures Valid()
      ensures this.hasOutput == hasOutput
      ensures entries == old(entries) && maxEntries == old(maxEntries) && level == old(level)
      ensures listeners == old(listeners) && notifications == old(notifications)
      ensures written == old(written) && exited == old(exited) && accepted == old(accepted)
    {
      this.hasOutput := hasOutput;
    }

    /** SetMaxEntries: the new bound applies at once and the oldest entries
        beyond it are dropped. A negative bound makes the source's slice
        panic. */
    method SetMaxEntries(max: int)
      requires Valid()
      requires max >= 0
      modifies this
      ensures Valid()
      ensures maxEntries == max
      ensures entries == Newest(old(entries), max)
      ensures level == old(level) && hasOutput == old(hasOutput)
      ensures listeners == old(listeners) && notifications == old(notifications)
      ensures written == old(written) && exited == old(exited) && accepted == old(accepted)
    {
      maxEntries := max;
      if |entries| > max {
        SuffixOfSuffix(entries, accepted, max);
        entries := entries[|entries| - max..];
      }
    }

    method AddListener()
      requires Valid()
      modifies this
      ensures Valid()
      ensures listeners == old(listeners) + 1
      ensures entries == old(entries) && maxEntries == old(maxEntries) && level == old(level)
      ensures hasOutput == old(hasOutput) && notifications == old(notifications)
      ensures written == old(written) && exited == old(exited) && accepted == old(accepted)
    {
      listeners := listeners + 1;
    }

    /** The notifications of one entry to listeners 0..n-1. */
    static function Fanout(n: nat, e: LogEntry): (r: seq<(nat, LogEntry)>)
      ensures |r| == n && forall i :: 0 <= i < n ==> r[i] == (i, e)
    {
      if n == 0 then [] else Fanout(n - 1, e) + [(n - 1, e)]
    }

    /** The goroutine launched per listener, in listener order. */
    static method Notify(n: nat, e: LogEntry) returns (sent: seq<(nat, LogEntry)>)
      ensures sent == Fanout(n, e)
    {
      sent := [];
      var i := 0;
      while i < n
        invariant 0 <= i <= n
        invariant sent == Fanout(i, e)
      {
        sent := sent + [(i, e)];
        i := i + 1;
      }
    }

    /** log: an entry below the threshold is dropped; otherwise it is
        appended, the oldest entry is dropped when the bound is exceeded,
        every listener is notified and the output receives it. Only the
        five level methods call it. */
    method Log(level: int, source: string, message: string)
      requires Valid()
      requires LevelDebug <= level <= LevelFatal
      modifies this
      ensures Valid()
      ensures level < old(this.level) ==>
                entries == old(entries) && notifications == old(notifications)
                && written == old(written) && accepted == old(accepted)
      ensures level >= old(this.level) ==>
                accepted == old(accepted) + [LogEntry(LevelName(level), message, source)]
                && entries == Newest(old(entries) + [LogEntry(LevelName(level), message, source)], maxEntries)
                && notifications == old(notifications) + Fanout(listeners, LogEntry(LevelName(level), message, source))
                && written == old(written) + (if hasOutput then [LogEntry(LevelName(level), message, source)] else [])
      ensures this.level == old(this.level) && maxEntries == old(maxEntries) && hasOutput == old(hasOutput)
      ensures listeners == old(listeners) && exited == old(exited)
    {
      if level >= this.level {
        var entry := LogEntry(LevelName(level), message, source);
        var buf := entries + [entry];
        if |buf| > maxEntries {
          buf := buf[1..];
        }
        DropOldest(entries, entry, maxEntries);
        SuffixAppend(entries, accepted, entry);
        NewestSuffix(entries + [entry], accepted + [entry], maxEntries);
        NewestKnown(entries, entry, maxEntries);
        var sent := Notify(listeners, entry);
        var out := if hasOutput then written + [entry] else written;
        entries, accepted, notifications, written := buf, accepted + [entry], notifications + sent, out;
      }
    }

    method Debug(source: string, message: string)
      requires Valid()
      modifies this
      ensures Valid()
      ensures old(level) <= LevelDebug ==>
                accepted == old(accepted) + [LogEntry("DEBUG", message, source)]
                && entries == Newest(old(entries) + [LogEntry("DEBUG", message, source)], maxEntries)
                && notifications == old(notifications) + Fanout(listeners, LogEntry("DEBUG", message, source))
                && written == old(written) + (if hasOutput then [LogEntry("DEBUG", message, source)] else [])
      ensures old(level) > LevelDebug ==>
                entries == old(entries) && notifications == old(notifications)
                && written == old(written) && accepted == old(accepted)
      ensures level == old(level) && maxEntries == old(maxEntries) && hasOutput == old(hasOutput)
      ensures listeners == old(listeners) && exited == old(exited)
    {
      Log(LevelDebug, source, message);
    }

    method Info(source: string, message: string)
      requires Valid()
      modifies this
      ensures Valid()
      ensures old(level) <= LevelInfo ==>
                accepted == old(accepted) + [LogEntry("INFO", message, source)]
                && entries == Newest(old(entries) + [LogEntry("INFO", message, source)], maxEntries)
                && notifications == old(notifications) + Fanout(listeners, LogEntry("INFO", message, source))
                && written == old(written) + (if hasOutput then [LogEntry("INFO", message, source)] else [])
      ensures old(level) > LevelInfo ==>
                entries == old(entries) && notifications == old(notifications)
                && written == old(written) && accepted == old(accepted)
      ensures level == old(level) && maxEntries == old(maxEntries) && hasOutput == old(hasOutput)
      ensures listeners == old(listeners) && exited == old(exited)
    {
      Log(LevelInfo, source, message);
    }

    method Warn(source: string, message: string)
      requires Valid()
      modifies this
      ensures Valid()
      ensures old(level) <= LevelWarn ==>
                accepted == old(accepted) + [LogEntry("WARN", message, source)]
                && entries == Newest(old(entries) + [LogEntry("WARN", message, source)], maxEntries)
                && notifications == old(notifications) + Fanout(listeners, LogEntry("WARN", message, source))
                && written == old(written) + (if hasOutput then [LogEntry("WARN", message, source)] else [])
      ensures old(level) > LevelWarn ==>
                entries == old(entries) && notifications == old(notifications)
                && written == old(written) && accepted == old(accepted)
      ensures level == old(level) && maxEntries == old(maxEntries) && hasOutput == old(hasOutput)
      ensures listeners == old(listeners) && exited == old(exited)
    {
      Log(LevelWarn, source, message);
    }

    method Error(source: string, message: string)
      requires Valid()
      modifies this
      ensures Valid()
      ensures old(level) <= LevelError ==>
                accepted == old(accepted) + [LogEntry("ERROR", message, source)]
                && entries == Newest(old(entries) + [LogEntry("ERROR", message, source)], maxEntries)
                && notifications == old(notifications) + Fanout(listeners, LogEntry("ERROR", message, source))
                && written == old(written) + (if hasOutput then [LogEntry("ERROR", message, source)] else [])
      ensures old(level) > LevelError ==>
                entries == old(entries) && notifications == old(notifications)
                && written == old(written) && accepted == old(accepted)
      ensures level == old(level) && maxEntries == old(maxEntries) && hasOutput == old(hasOutput)
      ensures listeners == old(listeners) && exited == old(exited)
    {
      Log(LevelError, source, message);
    }

    /** Fatal logs like the others and then ends the process. */
    method Fatal(source: string, message: string)
      requires Valid()
      modifies this
      ensures Valid()
      ensures old(level) <= LevelFatal ==>
                accepted == old(accepted) + [LogEntry("FATAL", message, source)]
                && entries == Newest(old(entries) + [LogEntry("FATAL", message, source)], maxEntries)
                && notifications == old(notifications) + Fanout(listeners, LogEntry("FATAL", message, source))
                && written == old(written) + (if hasOutput then [LogEntry("FATAL", message, source)] else [])
      ensures old(level) > LevelFatal ==>
                entries == old(entries) && notifications == old(notifications)
                && written == old(written) && accepted == old(accepted)
      ensures level == old(level) && maxEntries == old(maxEntries) && hasOutput == old(hasOutput)
      ensures listeners == old(listeners) && exited
    {
      assert LevelName(LevelFatal) == "FATAL";
      Log(LevelFatal, source, message);
      ghost var kept := entries;
      exited := true;
      assert entries == kept && Valid();
    }

    /** GetEntries: a copy of the buffer, oldest first. */
    function GetEntries(): (r: seq<LogEntry>)
      requires Valid()
      reads this
      ensures |r| <= maxEntries
      ensures AllKnownLevels(r)
    {
      entries
    }

    /** GetEntriesByLevel: the buffered entries of one level, oldest first. */
    method GetEntriesByLevel(level: string) returns (filtered: seq<LogEntry>)
      ensures filtered == WithLevel(entries, level)
    {
      filtered := [];
      var i := 0;
      while i < |entries|
        invariant 0 <= i <= |entries|
        invariant filtered == WithLevel(entries[..i], level)
      {
        assert entries[..i + 1][..i] == entries[..i];
        if entries[i].level == level {
          filtered := filtered + [entries[i]];
        }
        i := i + 1;
      }
      assert entries[..i] == entries;
    }

    /** GetEntriesBySource: the buffered entries of one source, oldest first. */
    method GetEntriesBySource(source: string) returns (filtered: seq<LogEntry>)
      ensures filtered == WithSource(entries, source)
    {
      filtered := [];
      var i := 0;
      while i < |entries|
        invariant 0 <= i <= |entries|
        invariant filtered == WithSource(entries[..i], source)
      {
        assert entries[..i + 1][..i] == entries[..i];
        if entries[i].source == source {
          filtered := filtered + [entries[i]];
        }
        i := i + 1;
      }
      assert entries[..i] == entries;
    }

    method Clear()
      requires Valid()
      modifies this
      ensures Valid()
      ensures entries == []
      ensures level == old(level) && maxEntries == old(maxEntries) && hasOutput == old(hasOutput)
      ensures listeners == old(listeners) && notifications == old(notifications)
      ensures written == old(written) && exited == old(exited) && accepted == old(accepted)
    {
      entries := [];
    }
  }
}
