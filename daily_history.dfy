/**
 The daily history: for every local day on which some markdown file was last
 modified, the total word count of those files. Files without a `stat` are
 skipped. The history is rebuilt from scratch on every scan. Also the vault
 total, which counts every file, with or without a `stat`.
 */
module DailyHistory {
  import opened Collections
  import opened WordCount
  import opened DayKeys

  /**
   A markdown file as the scan sees it: the local date of its modification
   time when it has a `stat`, and its content.
   */
  datatype FileRecord = FileRecord(stat: Option<LocalDate>, content: string)

  /** The file has a `stat` and is counted under `day`. */
  predicate CountedUnder(f: FileRecord, day: string)
  {
    f.stat.Some? && DayKey(f.stat.value) == day
  }

  /** `count` added to the entry of `day`, a missing entry counting as 0. */
  function AddCount(h: map<string, nat>, day: string, count: nat): map<string, nat>
  {
    h[day := (if day in h then h[day] else 0) + count]
  }

  /** What one file adds to the history: its count, under its day, if it has a `stat`. */
  function AddFile(h: map<string, nat>, f: FileRecord): map<string, nat>
  {
    match f.stat
    case None => h
    case Some(date) => AddCount(h, DayKey(date), CountWords(f.content))
  }

  /** The history the scan builds: the files folded in order into a fresh map. */
  function History(files: seq<FileRecord>): map<string, nat>
  {
    if files == [] then map[]
    else AddFile(History(files[..|files| - 1]), files[|files| - 1])
  }

  /** The words of the files counted under `day`. */
  function DayTotal(files: seq<FileRecord>, day: string): nat
  {
    if files == [] then 0
    else
      var f := files[|files| - 1];
      DayTotal(files[..|files| - 1], day) + (if CountedUnder(f, day) then CountWords(f.content) else 0)
  }

  /** The words of all files that have a `stat`. */
  function StatTotal(files: seq<FileRecord>): nat
  {
    if files == [] then 0
    else
      var f := files[|files| - 1];
      StatTotal(files[..|files| - 1]) + (if f.stat.Some? then CountWords(f.content) else 0)
  }

  /** The words of all files. */
  function VaultTotal(files: seq<FileRecord>): nat
  {
    if files == [] then 0
    else VaultTotal(files[..|files| - 1]) + CountWords(files[|files| - 1].content)
  }

  /**
   The scan loop: skip a file without `stat`, form its day key, set a day
   seen for the first time (or holding 0) to 0, then add the file's count.
   */
  method BuildDailyHistory(files: seq<FileRecord>) returns (dayWordMap: map<string, nat>)
    ensures dayWordMap == History(files)
  {
    dayWordMap := map[];
    for i := 0 to |files|
      invariant dayWordMap == History(files[..i])
    {
      HistoryStep(files, i);
      var file := files[i];
      if file.stat.None? {
        continue;
      }
      var day := DayKey(file.stat.value);
      var count := CountWords(file.content);
      dayWordMap := AddToDay(dayWordMap, day, count);
    }
    assert files[..|files|] == files;
  }

  /**
   The update of one day's entry: a day seen for the first time, or holding
   0, is set to 0, then the count is added.
   */
  method AddToDay(dayWordMap: map<string, nat>, day: string, count: nat) returns (m: map<string, nat>)
    ensures m == AddCount(dayWordMap, day, count)
  {
    m := dayWordMap;
    if day !in m || m[day] == 0 {
      m := m[day := 0];
    }
    m := m[day := m[day] + count];
  }

  /** The history of one more file is that file added to the history so far. */
  lemma HistoryStep(files: seq<FileRecord>, i: nat)
    requires i < |files|
    ensures History(files[..i + 1]) == AddFile(History(files[..i]), files[i])
  {
    assert files[..i + 1][..i] == files[..i];
  }

  lemma AddFileKeys(h: map<string, nat>, f: FileRecord, day: string)
    ensures day in AddFile(h, f) <==> day in h || CountedUnder(f, day)
    ensures day in AddFile(h, f) ==>
      AddFile(h, f)[day] == (if day in h then h[day] else 0) + (if CountedUnder(f, day) then CountWords(f.content) else 0)
  {
  }

  /** Some file of `files` with a `stat` is counted under `day`. */
  predicate SomeFileUnder(files: seq<FileRecord>, day: string)
  {
    exists f :: f in files && CountedUnder(f, day)
  }

  lemma SomeFileUnderSnoc(files: seq<FileRecord>, day: string)
    requires files != []
    ensures SomeFileUnder(files, day) <==>
      SomeFileUnder(files[..|files| - 1], day) || CountedUnder(files[|files| - 1], day)
  {
    assert files == files[..|files| - 1] + [files[|files| - 1]];
  }

  lemma {:induction false} HistoryKeys(files: seq<FileRecord>, day: string)
    ensures day in History(files) <==> SomeFileUnder(files, day)
  {
    if files != [] {
      var init, f := files[..|files| - 1], files[|files| - 1];
      HistoryKeys(init, day);
      AddFileKeys(History(init), f, day);
      SomeFileUnderSnoc(files, day);
    }
  }

  lemma {:induction false} HistoryValue(files: seq<FileRecord>, day: string)
    requires day in History(files)
    ensures History(files)[day] == DayTotal(files, day)
  {
    var init, f := files[..|files| - 1], files[|files| - 1];
    AddFileKeys(History(init), f, day);
    if day in History(init) {
      HistoryValue(init, day);
    } else {
      HistoryKeys(init, day);
      NotCountedZero(init, day);
    }
  }

  /**
   A day is a key exactly when some file with a `stat` is counted under it,
   and its value is the sum of the counts of exactly those files.
   */
  lemma HistoryByDay(files: seq<FileRecord>, day: string)
    ensures day in History(files) <==> exists f :: f in files && CountedUnder(f, day)
    ensures day in History(files) ==> History(files)[day] == DayTotal(files, day)
  {
    HistoryKeys(files, day);
    if day in History(files) {
      HistoryValue(files, day);
    }
  }

  lemma {:induction false} NotCountedZero(files: seq<FileRecord>, day: string)
    requires !SomeFileUnder(files, day)
    ensures DayTotal(files, day) == 0
  {
    if files != [] {
      SomeFileUnderSnoc(files, day);
      NotCountedZero(files[..|files| - 1], day);
    }
  }

  /** The values of the history add up to the words of the files that have a `stat`. */
  lemma {:induction false} HistoryTotal(files: seq<FileRecord>)
    ensures MapTotal(History(files)) == StatTotal(files)
  {
    if files != [] {
      var init, f := files[..|files| - 1], files[|files| - 1];
      HistoryTotal(init);
      if f.stat.Some? {
        AddCountTotal(History(init), DayKey(f.stat.value), CountWords(f.content));
      }
    }
  }

  /** Adding a count to one entry adds it to the total. */
  lemma AddCountTotal(h: map<string, nat>, day: string, count: nat)
    ensures MapTotal(AddCount(h, day, count)) == MapTotal(h) + count
  {
    var prior := if day in h then h[day] else 0;
    var h' := h[day := prior + count];
    assert AddCount(h, day, count) == h';
    MapTotalUpdate(h, day, prior + count);
    assert MapTotal(h') + prior == MapTotal(h) + prior + count;
  }

  lemma {:induction false} StatTotalAtMostVault(files: seq<FileRecord>)
    ensures StatTotal(files) <= VaultTotal(files)
  {
    if files != [] {
      StatTotalAtMostVault(files[..|files| - 1]);
    }
  }

  /**
   The vault total counts every file while the history skips those without
   a `stat`, so over the same files the history never exceeds it.
   */
  lemma HistoryWithinVault(files: seq<FileRecord>)
    ensures MapTotal(History(files)) <= VaultTotal(files)
  {
    HistoryTotal(files);
    StatTotalAtMostVault(files);
  }

  /** Removing a file without a `stat`, wherever it stands, leaves the history unchanged. */
  lemma {:induction false} StatlessFileIgnored(before: seq<FileRecord>, f: FileRecord, after: seq<FileRecord>)
    requires f.stat.None?
    ensures History(before + [f] + after) == History(before + after)
    decreases |after|
  {
    if after == [] {
      assert before + [f] + after == before + [f];
      assert (before + [f])[..|before|] == before;
      assert before + after == before;
    } else {
      var init, last := after[..|after| - 1], after[|after| - 1];
      StatlessFileIgnored(before, f, init);
      var x, y := before + [f] + after, before + after;
      assert x == (before + [f] + init) + [last];
      assert y == (before + init) + [last];
      assert x[..|x| - 1] == before + [f] + init && x[|x| - 1] == last;
      assert y[..|y| - 1] == before + init && y[|y| - 1] == last;
    }
  }

  /** `updateVaultWordCount`'s loop: the words of every file, `stat` or not. */
  method VaultWordCount(files: seq<FileRecord>) returns (total: nat)
    ensures total == VaultTotal(files)
  {
    total := 0;
    for i := 0 to |files|
      invariant total == VaultTotal(files[..i])
    {
      assert files[..i + 1][..i] == files[..i];
      total := total + CountWords(files[i].content);
    }
    assert files[..|files|] == files;
  }
}
