// The age-based retention sweep shared by `cleanupOldReports` (in both
// scripts/linkChecker.js and scripts/linkChecker.ts) and `cleanupOldLogs`
// (scripts/scheduledLinkCheck.js): every file older than the retention
// period is unlinked, in listing order, and the first failing `statSync`
// or `unlinkSync` ends the sweep, the error being caught and logged.
// The clock is the parameter `now`, in milliseconds.

module Retention {
  import opened Wrappers
  import opened LinkConfig

  /** A listed file: its name, its mtime in ms (None when `statSync` throws), and whether `unlinkSync` succeeds. */
  datatype DirEntry = DirEntry(name: string, mtime: Option<int>, removable: bool)

  /** A directory whose listing may fail (`readdirSync` throws). */
  datatype Dir = Dir(readable: bool, entries: seq<DirEntry>)

  /** Strictly older than the retention period. */
  predicate Expired(e: DirEntry, now: int, maxAgeMs: int)
  {
    e.mtime.Some? && now - e.mtime.value > maxAgeMs
  }

  /** What stays, what was unlinked, and whether an error ended the sweep. */
  datatype Sweep = Sweep(kept: seq<DirEntry>, removed: seq<DirEntry>, failed: bool)

  function SweepFrom(entries: seq<DirEntry>, now: int, maxAgeMs: int): Sweep
  {
    if entries == [] then Sweep([], [], false)
    else
      var e := entries[0];
      if e.mtime.None? || (Expired(e, now, maxAgeMs) && !e.removable) then Sweep(entries, [], true)
      else
        var rest := SweepFrom(entries[1..], now, maxAgeMs);
        if Expired(e, now, maxAgeMs) then Sweep(rest.kept, [e] + rest.removed, rest.failed)
        else Sweep([e] + rest.kept, rest.removed, rest.failed)
  }

  /** Every file can be examined, and every expired one can be unlinked. */
  predicate Sweepable(entries: seq<DirEntry>, now: int, maxAgeMs: int)
  {
    forall k :: 0 <= k < |entries| ==>
      entries[k].mtime.Some? && (Expired(entries[k], now, maxAgeMs) ==> entries[k].removable)
  }

  /** The kept and the unlinked files together are exactly the listed ones. */
  lemma {:induction false} SweepLosesNothing(entries: seq<DirEntry>, now: int, maxAgeMs: int)
    ensures var sw := SweepFrom(entries, now, maxAgeMs);
      multiset(sw.kept) + multiset(sw.removed) == multiset(entries)
  {
    if entries != [] && !(entries[0].mtime.None? || (Expired(entries[0], now, maxAgeMs) && !entries[0].removable)) {
      assert entries == [entries[0]] + entries[1..];
      SweepLosesNothing(entries[1..], now, maxAgeMs);
    }
  }

  /** Only expired files are unlinked. */
  lemma {:induction false} SweepRemovesOnlyExpired(entries: seq<DirEntry>, now: int, maxAgeMs: int)
    ensures var sw := SweepFrom(entries, now, maxAgeMs);
      forall x :: x in sw.removed ==> Expired(x, now, maxAgeMs)
  {
    if entries != [] && !(entries[0].mtime.None? || (Expired(entries[0], now, maxAgeMs) && !entries[0].removable)) {
      SweepRemovesOnlyExpired(entries[1..], now, maxAgeMs);
    }
  }

  /** The sweep fails exactly when some file cannot be examined or an expired one cannot be unlinked. */
  lemma {:induction false} SweepFailsIff(entries: seq<DirEntry>, now: int, maxAgeMs: int)
    ensures SweepFrom(entries, now, maxAgeMs).failed <==> !Sweepable(entries, now, maxAgeMs)
  {
    if entries != [] {
      var e := entries[0];
      if e.mtime.None? || (Expired(e, now, maxAgeMs) && !e.removable) {
        assert !Sweepable(entries, now, maxAgeMs);
      } else {
        SweepFailsIff(entries[1..], now, maxAgeMs);
        if Sweepable(entries[1..], now, maxAgeMs) {
          forall k | 0 <= k < |entries|
            ensures entries[k].mtime.Some? && (Expired(entries[k], now, maxAgeMs) ==> entries[k].removable)
          {
            if k > 0 {
              assert entries[k] == entries[1..][k - 1];
            }
          }
        } else {
          var k :| 0 <= k < |entries[1..]|
                   && !(entries[1..][k].mtime.Some? && (Expired(entries[1..][k], now, maxAgeMs) ==> entries[1..][k].removable));
          assert entries[k + 1] == entries[1..][k];
        }
      }
    }
  }

  /** A sweep that does not fail leaves no expired file behind. */
  lemma {:induction false} SweepLeavesNoExpired(entries: seq<DirEntry>, now: int, maxAgeMs: int)
    ensures var sw := SweepFrom(entries, now, maxAgeMs);
      !sw.failed ==> forall x :: x in sw.kept ==> !Expired(x, now, maxAgeMs)
  {
    if entries != [] && !(entries[0].mtime.None? || (Expired(entries[0], now, maxAgeMs) && !entries[0].removable)) {
      SweepLeavesNoExpired(entries[1..], now, maxAgeMs);
    }
  }

  /** The sweep of `entries` continuing one that has so far kept `kept` and unlinked `removed`. */
  function Resume(kept: seq<DirEntry>, removed: seq<DirEntry>, entries: seq<DirEntry>, now: int, maxAgeMs: int): Sweep
  {
    var rest := SweepFrom(entries, now, maxAgeMs);
    Sweep(kept + rest.kept, removed + rest.removed, rest.failed)
  }

  /** A file that cannot be examined, or an expired one that cannot be unlinked, ends the sweep with an error. */
  lemma SweepStops(kept: seq<DirEntry>, removed: seq<DirEntry>, files: seq<DirEntry>, i: nat, now: int, maxAgeMs: int)
    requires i < |files| && (files[i].mtime.None? || (Expired(files[i], now, maxAgeMs) && !files[i].removable))
    ensures Resume(kept, removed, files[i..], now, maxAgeMs).kept == kept + files[i..]
    ensures Resume(kept, removed, files[i..], now, maxAgeMs).failed
  {
  }

  /** One step of the sweep loop, for a file that neither ends it nor fails. */
  lemma SweepAdvance(kept: seq<DirEntry>, removed: seq<DirEntry>, files: seq<DirEntry>, i: nat, now: int, maxAgeMs: int)
    requires i < |files| && files[i].mtime.Some?
    requires Expired(files[i], now, maxAgeMs) ==> files[i].removable
    ensures Expired(files[i], now, maxAgeMs) ==>
      Resume(kept, removed, files[i..], now, maxAgeMs) == Resume(kept, removed + [files[i]], files[i + 1..], now, maxAgeMs)
    ensures !Expired(files[i], now, maxAgeMs) ==>
      Resume(kept, removed, files[i..], now, maxAgeMs) == Resume(kept + [files[i]], removed, files[i + 1..], now, maxAgeMs)
  {
    assert files[i..][1..] == files[i + 1..];
  }

  /** The sweep of one directory, with the retention period in days; the count is reported unless an error was caught. */
  method CleanupOldFiles(dir: Dir, now: int, retentionDays: int) returns (remaining: seq<DirEntry>, cleaned: Option<nat>)
    ensures !dir.readable ==> remaining == dir.entries && cleaned.None?
    ensures dir.readable ==>
      var sw := SweepFrom(dir.entries, now, retentionDays * MillisPerDay);
      && remaining == sw.kept
      && (cleaned.Some? <==> !sw.failed)
      && (cleaned.Some? ==> cleaned.value == |sw.removed|)
  {
    if !dir.readable {
      return dir.entries, None;
    }
    var files := dir.entries;
    var maxAgeMs := retentionDays * MillisPerDay;
    ghost var removed: seq<DirEntry> := [];
    remaining := [];
    var cleanedCount := 0;
    var i := 0;
    while i < |files|
      invariant 0 <= i <= |files| && cleanedCount == |removed|
      invariant SweepFrom(files, now, maxAgeMs) == Resume(remaining, removed, files[i..], now, maxAgeMs)
    {
      var file := files[i];
      if file.mtime.None? {
        SweepStops(remaining, removed, files, i, now, maxAgeMs);
        return remaining + files[i..], None;
      }
      var fileAge := now - file.mtime.value;
      if fileAge > maxAgeMs {
        if !file.removable {
          SweepStops(remaining, removed, files, i, now, maxAgeMs);
          return remaining + files[i..], None;
        }
        SweepAdvance(remaining, removed, files, i, now, maxAgeMs);
        removed := removed + [file];
        cleanedCount := cleanedCount + 1;
      } else {
        SweepAdvance(remaining, removed, files, i, now, maxAgeMs);
        remaining := remaining + [file];
      }
      i := i + 1;
    }
    cleaned := Some(cleanedCount);
  }

  /** `cleanupOldReports` (linkChecker.js and linkChecker.ts): the sweep of the reports directory with `reportRetentionDays`. */
  method CleanupOldReports(cfg: Config, reports: Dir, now: int) returns (remaining: seq<DirEntry>)
    ensures !reports.readable ==> remaining == reports.entries
    ensures reports.readable ==> remaining == SweepFrom(reports.entries, now, cfg.reportRetentionDays * MillisPerDay).kept
  {
    var cleaned;
    remaining, cleaned := CleanupOldFiles(reports, now, cfg.reportRetentionDays);
  }
}
