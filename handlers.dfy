/** The date-rotating file sink (`DateRotatingFileHandler`, src/logging/handlers.py).

    The directory that holds the sink's files is a `Directory` object mapping
    each file name to its modification time and the lines appended to it;
    today's date, the current instant and the set of names whose deletion
    fails are parameters of the operations that need them. */
module Handlers {
  import opened Common
  import opened Clock

  // ---------------------------------------------------------------------
  // File names

  /** A path as pathlib splits it: the parent directory and the final name. */
  datatype FilePath = FilePath(dir: string, name: string)

  /** The index of the last '.' in s, or -1 when there is none. */
  function LastDot(s: string): (i: int)
    ensures -1 <= i < |s|
    ensures i >= 0 ==> s[i] == '.'
    ensures forall j | i < j < |s| :: s[j] != '.'
  {
    if s == [] then -1
    else if s[|s| - 1] == '.' then |s| - 1
    else LastDot(s[..|s| - 1])
  }

  /** `PurePath.suffix`: from the last dot on, unless that dot leads or ends the name. */
  function Suffix(name: string): string {
    var i := LastDot(name);
    if 0 < i < |name| - 1 then name[i..] else ""
  }

  /** `PurePath.stem`: the name without its suffix. */
  function Stem(name: string): string {
    var i := LastDot(name);
    if 0 < i < |name| - 1 then name[..i] else name
  }

  /** Stem and suffix split the name; a non-empty suffix is a dot followed
      by at least one character and no further dot. */
  lemma StemSuffixSplit(name: string)
    ensures Stem(name) + Suffix(name) == name
    ensures Suffix(name) == "" || (|Suffix(name)| >= 2 && Suffix(name)[0] == '.' && '.' !in Suffix(name)[1..])
  {
    var i := LastDot(name);
    if 0 < i < |name| - 1 {
      assert name[..i] + name[i..] == name;
      var suf := name[i..];
      forall j | 1 <= j < |suf| ensures suf[j] != '.' {
        assert suf[j] == name[i + j];
      }
    }
  }

  /** A channel's base name `{ch}.log`: its stem is the channel name and its suffix `.log`. */
  lemma ChannelBaseName(stem: string)
    requires stem != [] && '.' !in stem
    ensures Stem(stem + ".log") == stem && Suffix(stem + ".log") == ".log"
  {
    var name := stem + ".log";
    assert name[..|name| - 1] == stem + ".lo";
    assert (stem + ".lo")[..|stem| + 2] == stem + ".l";
    assert (stem + ".l")[..|stem| + 1] == stem + ".";
    assert name[|stem|] == '.' && name[|stem| + 1] == 'l' && name[|stem| + 2] == 'o' && name[|stem| + 3] == 'g';
    assert LastDot(name) == |stem|;
    assert name[..|stem|] == stem;
  }

  /** `_get_dated_filename`: `{stem}_{YYYY-MM-DD}{suffix}` in the base's directory. */
  function DatedName(baseName: string, d: Date): string {
    Stem(baseName) + "_" + FormatDate(d) + Suffix(baseName)
  }

  function DatedPath(base: FilePath, d: Date): FilePath {
    FilePath(base.dir, DatedName(base.name, d))
  }

  /** `test.log` on day D is `test_D.log`. */
  lemma DatedNameOfLogFile(stem: string, d: Date)
    requires stem != [] && '.' !in stem
    ensures DatedName(stem + ".log", d) == stem + "_" + FormatDate(d) + ".log"
  {
    ChannelBaseName(stem);
  }

  /** Different days give different file names. */
  lemma DatedNameInjective(baseName: string, a: Date, b: Date)
    ensures DatedName(baseName, a) == DatedName(baseName, b) ==> a == b
  {
    var p := Stem(baseName) + "_";
    FormatDateRoundTrip(a);
    FormatDateRoundTrip(b);
    var na := DatedName(baseName, a);
    var nb := DatedName(baseName, b);
    assert na == p + FormatDate(a) + Suffix(baseName);
    assert nb == p + FormatDate(b) + Suffix(baseName);
    assert na[|p|..|p| + 10] == FormatDate(a);
    assert nb[|p|..|p| + 10] == FormatDate(b);
    FormatDateInjective(a, b);
  }

  /** `Path.glob(f"{stem}_*.log")` within one directory (the stem taken literally). */
  predicate MatchesPattern(name: string, stem: string) {
    && |name| >= |stem| + 5
    && name[..|stem| + 1] == stem + "_"
    && name[|name| - 4..] == ".log"
  }

  /** A dated file of a `.log` base is one the cleanup considers. */
  lemma DatedNameMatches(baseName: string, d: Date)
    requires Suffix(baseName) == ".log"
    ensures MatchesPattern(DatedName(baseName, d), Stem(baseName))
  {
    var stem := Stem(baseName);
    var n := DatedName(baseName, d);
    FormatDateRoundTrip(d);
    assert n == (stem + "_") + (FormatDate(d) + ".log");
    assert n[..|stem| + 1] == stem + "_";
    assert n[|n| - 4..] == ".log";
  }

  // ---------------------------------------------------------------------
  // The directory

  datatype FileState = FileState(mtime: int, lines: seq<string>)

  /** One directory on disk: file name to modification time and contents. */
  class Directory {
    var files: map<string, FileState>

    constructor (files: map<string, FileState>)
      ensures this.files == files
    {
      this.files := files;
    }
  }

  function Mtime(files: map<string, FileState>, name: string): int {
    if name in files then files[name].mtime else 0
  }

  function MatchingNames(files: map<string, FileState>, stem: string): set<string> {
    set n | n in files && MatchesPattern(n, stem)
  }

  /** Opening a file in append mode creates it, empty, when it is absent. */
  function Opened(files: map<string, FileState>, name: string, now: int): map<string, FileState> {
    if name in files then files else files[name := FileState(now, [])]
  }

  /** `FileHandler.emit`: reopen the stream if it was closed, append the line
      and flush, which stamps the file with the current instant. A stream
      still open on a file that was deleted writes to the unlinked file,
      which the directory no longer shows. */
  function Written(files: map<string, FileState>, name: string, streamOpen: bool, line: string, now: int): map<string, FileState> {
    if streamOpen && name !in files then files
    else
      var f := Opened(files, name, now);
      f[name := FileState(now, f[name].lines + [line])]
  }

  /** Appending changes only the target: it ends with the line and carries
      the current instant. */
  lemma WrittenAppends(files: map<string, FileState>, name: string, streamOpen: bool, line: string, now: int)
    requires !streamOpen || name in files
    ensures var w := Written(files, name, streamOpen, line, now);
      && w.Keys == files.Keys + {name}
      && w[name].lines == (if name in files then files[name].lines else []) + [line]
      && w[name].mtime == now
      && forall n | n in files && n != name :: w[n] == files[n]
  {
  }

  // ---------------------------------------------------------------------
  // How many files the cleanup removes

  /** `len(xs[:stop])` for a Python list of length n. */
  function SliceLength(n: nat, stop: int): nat {
    if stop >= 0 then (if stop < n then stop else n)
    else if n + stop > 0 then n + stop else 0
  }

  /** `len(log_files[:-max_files])` behind the `len(log_files) <= max_files`
      guard, as written. */
  function RemovalCountAsWritten(n: nat, maxFiles: int): nat {
    if n <= maxFiles then 0 else SliceLength(n, -maxFiles)
  }

  /** The number of files pruned: down to max_files when there are more, and
      none when max_files is zero or negative (retention disabled). */
  function RemovalCount(n: nat, maxFiles: int): (k: nat)
    ensures k <= n
    ensures k > 0 <==> maxFiles > 0 && n > maxFiles
    ensures k > 0 ==> n - k == maxFiles
  {
    if maxFiles <= 0 || n <= maxFiles then 0 else n - maxFiles
  }

  /** For a non-negative limit the two counts agree; `[:-0]` is empty, so a
      zero limit removes nothing. */
  lemma RemovalCountMatchesSource(n: nat, maxFiles: int)
    requires maxFiles >= 0
    ensures RemovalCountAsWritten(n, maxFiles) == RemovalCount(n, maxFiles)
  {
  }

  /** As written, a negative limit -k removes the k oldest files (all of them
      when there are fewer) on every cleanup. */
  lemma NegativeLimitRemovesOldest(n: nat, maxFiles: int)
    requires maxFiles < 0 && n > 0
    ensures RemovalCountAsWritten(n, maxFiles) == (if -maxFiles < n then -maxFiles else n)
    ensures RemovalCountAsWritten(n, maxFiles) > 0 && RemovalCount(n, maxFiles) == 0
  {
  }

  // ---------------------------------------------------------------------
  // Which files the cleanup removes

  predicate Distinct<T(==)>(s: seq<T>) {
    forall i, j | 0 <= i < j < |s| :: s[i] != s[j]
  }

  function Elements<T>(s: seq<T>): set<T> {
    set x | x in s
  }

  lemma {:induction false} ElementsCard<T>(s: seq<T>)
    ensures |Elements(s)| <= |s|
    ensures Distinct(s) <==> |Elements(s)| == |s|
  {
    if s != [] {
      var t := s[1..];
      ElementsCard(t);
      assert Elements(s) == {s[0]} + Elements(t);
      assert Distinct(s) <==> s[0] !in t && Distinct(t) by {
        if s[0] in t {
          var j :| 0 <= j < |t| && t[j] == s[0];
          assert s[j + 1] == s[0];
        }
        if s[0] !in t && Distinct(t) {
          forall i, j | 0 <= i < j < |s| ensures s[i] != s[j] {
            if i > 0 { assert s[i] == t[i - 1] && s[j] == t[j - 1]; }
            else { assert s[j] == t[j - 1]; }
          }
        }
        if Distinct(s) {
          forall i, j | 0 <= i < j < |t| ensures t[i] != t[j] {
            assert t[i] == s[i + 1] && t[j] == s[j + 1];
          }
        }
      }
      if s[0] in t {
        assert Elements(s) == Elements(t);
      }
    }
  }

  /** A permutation of a sequence without repetitions has none either. */
  lemma PermutationDistinct<T>(s: seq<T>, t: seq<T>)
    requires multiset(s) == multiset(t) && Distinct(t)
    ensures Distinct(s) && Elements(s) == Elements(t)
  {
    assert |s| == |multiset(s)| == |multiset(t)| == |t|;
    forall x ensures x in s <==> x in t {
      assert x in s <==> x in multiset(s);
      assert x in t <==> x in multiset(t);
    }
    assert Elements(s) == Elements(t);
    ElementsCard(s);
    ElementsCard(t);
  }

  /** The order the cleanup removes in: non-decreasing modification time. */
  ghost predicate SortedByMtime(s: seq<string>, files: map<string, FileState>) {
    forall i, j | 0 <= i < j < |s| :: Mtime(files, s[i]) <= Mtime(files, s[j])
  }

  /** The files a cleanup removes: matching ones only, exactly as many as the
      limit requires, and none newer than a matching file it keeps. */
  ghost predicate IsPruneSelection(files: map<string, FileState>, stem: string, maxFiles: int, removed: set<string>) {
    var m := MatchingNames(files, stem);
    && removed <= m
    && |removed| == RemovalCount(|m|, maxFiles)
    && forall r, k | r in removed && k in m - removed :: Mtime(files, r) <= Mtime(files, k)
  }

  /** The selection `_cleanup_old_files` makes as written: the same, but
      with the as-written count, so a negative limit removes the oldest files. */
  ghost predicate IsPruneSelectionAsWritten(files: map<string, FileState>, stem: string, maxFiles: int,
                                            removed: set<string>) {
    var m := MatchingNames(files, stem);
    && removed <= m
    && |removed| == RemovalCountAsWritten(|m|, maxFiles)
    && forall r, k | r in removed && k in m - removed :: Mtime(files, r) <= Mtime(files, k)
  }

  /** For every non-negative limit the handler's selection is exactly the
      selection as written. */
  lemma PruneSelectionMatchesSource(files: map<string, FileState>, stem: string, maxFiles: int,
                                    removed: set<string>)
    requires maxFiles >= 0
    ensures IsPruneSelection(files, stem, maxFiles, removed) <==> IsPruneSelectionAsWritten(files, stem, maxFiles, removed)
  {
    RemovalCountMatchesSource(|MatchingNames(files, stem)|, maxFiles);
  }

  /** For a negative limit they part: as written some matching file goes,
      in the handler none does. */
  lemma NegativeLimitSelections(files: map<string, FileState>, stem: string, maxFiles: int,
                                removed: set<string>, written: set<string>)
    requires maxFiles < 0 && MatchingNames(files, stem) != {}
    requires IsPruneSelection(files, stem, maxFiles, removed)
    requires IsPruneSelectionAsWritten(files, stem, maxFiles, written)
    ensures removed == {} && written != {}
  {
    NegativeLimitRemovesOldest(|MatchingNames(files, stem)|, maxFiles);
  }

  /** What survives a cleanup: every non-matching file, and of the matching
      ones the limit's worth (all of them when within the limit or when
      retention is disabled). */
  lemma PruneKeeps(files: map<string, FileState>, stem: string, maxFiles: int, removed: set<string>)
    requires IsPruneSelection(files, stem, maxFiles, removed)
    ensures forall n | n in files && !MatchesPattern(n, stem) :: n in files - removed
    ensures MatchingNames(files - removed, stem) == MatchingNames(files, stem) - removed
    ensures var n := |MatchingNames(files, stem)|;
      |MatchingNames(files - removed, stem)| == (if maxFiles > 0 && n > maxFiles then maxFiles else n)
  {
    var m := MatchingNames(files, stem);
    assert MatchingNames(files - removed, stem) == m - removed;
    assert |m - removed| == |m| - |removed|;
  }

  method Swap(a: array<string>, i: int, j: int)
    requires 0 <= i < a.Length && 0 <= j < a.Length
    modifies a
    ensures a[i] == old(a[j]) && a[j] == old(a[i])
    ensures forall k | 0 <= k < a.Length && k != i && k != j :: a[k] == old(a[k])
    ensures multiset(a[..]) == multiset(old(a[..]))
  {
    a[i], a[j] := a[j], a[i];
  }

  /** `log_files.sort(key=lambda x: x.stat().st_mtime)`, in place. */
  method SortByMtime(a: array<string>, files: map<string, FileState>)
    modifies a
    ensures SortedByMtime(a[..], files)
    ensures multiset(a[..]) == multiset(old(a[..]))
  {
    var i := 0;
    while i < a.Length
      invariant 0 <= i <= a.Length
      invariant SortedByMtime(a[..i], files)
      invariant multiset(a[..]) == multiset(old(a[..]))
    {
      var j := i;
      while j > 0 && Mtime(files, a[j - 1]) > Mtime(files, a[j])
        invariant 0 <= j <= i
        invariant multiset(a[..]) == multiset(old(a[..]))
        invariant forall p, q | 0 <= p < q <= i && p != j && q != j :: Mtime(files, a[p]) <= Mtime(files, a[q])
        invariant forall q | j < q <= i :: Mtime(files, a[j]) < Mtime(files, a[q])
      {
        Swap(a, j - 1, j);
        j := j - 1;
      }
      i := i + 1;
    }
  }

  /** `list(parent.glob(pattern))`: the matching names, each once, in the
      directory's own (unspecified) order. */
  method ListMatching(files: map<string, FileState>, stem: string) returns (listing: seq<string>)
    ensures Distinct(listing)
    ensures Elements(listing) == MatchingNames(files, stem)
  {
    listing := [];
    var rest := files.Keys;
    while rest != {}
      invariant rest <= files.Keys
      invariant Distinct(listing)
      invariant forall x :: x in listing <==> x in files && x !in rest && MatchesPattern(x, stem)
      decreases rest
    {
      var n :| n in rest;
      if MatchesPattern(n, stem) {
        listing := listing + [n];
      }
      rest := rest - {n};
    }
  }

  /** The body of `_cleanup_old_files` up to the deletions: list the matching
      files, keep them all when within the limit, otherwise sort them by
      modification time and take the oldest surplus. */
  method SelectForRemoval(files: map<string, FileState>, stem: string, maxFiles: int) returns (toRemove: seq<string>)
    ensures Distinct(toRemove)
    ensures IsPruneSelection(files, stem, maxFiles, Elements(toRemove))
  {
    var logFiles := ListMatching(files, stem);
    ElementsCard(logFiles);
    if |logFiles| <= maxFiles {
      return [];
    }
    var a := new string[|logFiles|](i requires 0 <= i < |logFiles| => logFiles[i]);
    assert a[..] == logFiles;
    SortByMtime(a, files);
    var sorted := a[..];
    // log_files[:-max_files], except that a limit of zero or below removes nothing
    var k := RemovalCount(|logFiles|, maxFiles);
    toRemove := sorted[..k];
    PermutationDistinct(sorted, logFiles);
    var m := MatchingNames(files, stem);
    assert Distinct(toRemove);
    ElementsCard(toRemove);
    assert Elements(toRemove) <= m;
    forall r, q | r in Elements(toRemove) && q in m - Elements(toRemove)
      ensures Mtime(files, r) <= Mtime(files, q)
    {
      var i :| 0 <= i < k && sorted[i] == r;
      var j :| 0 <= j < |sorted| && sorted[j] == q;
      assert k <= j;
    }
  }

  // ---------------------------------------------------------------------
  // The sink

  class DateRotatingFileHandler {
    /** `base_filename`: the undated path the dated names derive from. */
    const baseFilename: FilePath
    const maxFiles: int
    /** The directory `baseFilename.dir` names. */
    const dir: Directory
    var currentDate: Date
    /** `baseFilename` of the underlying FileHandler: the dated file written to. */
    var target: string
    /** Whether `stream` is an open file rather than None. */
    var streamOpen: bool
    /** The files the most recent cleanup chose to delete. */
    ghost var lastRemoved: set<string>

    ghost predicate Valid()
      reads this
    {
      target == DatedName(baseFilename.name, currentDate)
    }

    function StemOf(): string
      reads this
    {
      Stem(baseFilename.name)
    }

    /** `__init__`: take today's date, open today's file (creating it), then
        clean up, so today's file counts toward the limit. */
    constructor (filename: FilePath, maxFiles: int, dir: Directory, today: Date, now: int, failing: set<string>)
      modifies dir
      ensures Valid()
      ensures baseFilename == filename && this.maxFiles == maxFiles && this.dir == dir
      ensures currentDate == today && streamOpen
      ensures var withToday := Opened(old(dir.files), DatedName(filename.name, today), now);
        && IsPruneSelection(withToday, Stem(filename.name), maxFiles, lastRemoved)
        && dir.files == withToday - (lastRemoved - failing)
    {
      baseFilename := filename;
      this.maxFiles := maxFiles;
      this.dir := dir;
      currentDate := today;
      target := DatedName(filename.name, today);
      streamOpen := true;
      lastRemoved := {};
      new;
      dir.files := Opened(dir.files, target, now);
      CleanupOldFiles(failing);
    }

    /** `_cleanup_old_files`: delete the selected files one by one; a failed
        deletion is skipped and never raises. */
    method CleanupOldFiles(failing: set<string>)
      modifies dir, this`lastRemoved
      ensures IsPruneSelection(old(dir.files), StemOf(), maxFiles, lastRemoved)
      ensures dir.files == old(dir.files) - (lastRemoved - failing)
    {
      var toRemove := SelectForRemoval(dir.files, StemOf(), maxFiles);
      lastRemoved := Elements(toRemove);
      for i := 0 to |toRemove|
        invariant lastRemoved == Elements(toRemove)
        invariant dir.files == old(dir.files) - (Elements(toRemove[..i]) - failing)
      {
        assert Elements(toRemove[..i + 1]) == Elements(toRemove[..i]) + {toRemove[i]};
        if toRemove[i] !in failing {
          dir.files := dir.files - {toRemove[i]};
        }
      }
      assert toRemove[..|toRemove|] == toRemove;
    }

    /** `FileHandler.emit` on the current target. */
    method Write(line: string, now: int)
      modifies this`streamOpen, dir
      ensures streamOpen
      ensures dir.files == Written(old(dir.files), target, old(streamOpen), line, now)
    {
      if !streamOpen || target in dir.files {
        var f := Opened(dir.files, target, now);
        dir.files := f[target := FileState(now, f[target].lines + [line])];
      }
      streamOpen := true;
    }

    /** `emit`: on a new day, close the stream, move to the new day's file
        and clean up once, then append; on the same day, only append. */
    method Emit(line: string, today: Date, now: int, failing: set<string>)
      requires Valid()
      modifies this, dir
      ensures Valid() && streamOpen
      ensures old(today == currentDate) ==>
        && currentDate == old(currentDate) && target == old(target)
        && lastRemoved == old(lastRemoved)
        && dir.files == Written(old(dir.files), target, old(streamOpen), line, now)
      ensures old(today != currentDate) ==>
        && currentDate == today && target == DatedName(baseFilename.name, today)
        && IsPruneSelection(old(dir.files), StemOf(), maxFiles, lastRemoved)
        && dir.files == Written(old(dir.files) - (lastRemoved - failing), target, false, line, now)
    {
      if today != currentDate {
        streamOpen := false;
        currentDate := today;
        target := DatedName(baseFilename.name, today);
        CleanupOldFiles(failing);
      }
      Write(line, now);
    }
  }

  lemma SubsetCard<T>(a: set<T>, b: set<T>)
    requires a <= b
    ensures |a| <= |b|
  {
    assert b == a + (b - a);
  }

  /** After a rotation whose deletions all succeed, at most max_files + 1
      matching files remain, whether or not the limit was exceeded: the
      cleanup ran before the new day's file was created. */
  lemma RotationBound(files: map<string, FileState>, baseName: string, maxFiles: int, today: Date,
                      removed: set<string>, line: string, now: int)
    requires IsPruneSelection(files, Stem(baseName), maxFiles, removed)
    requires maxFiles > 0
    ensures |MatchingNames(Written(files - removed, DatedName(baseName, today), false, line, now), Stem(baseName))| <= maxFiles + 1
  {
    var stem := Stem(baseName);
    var name := DatedName(baseName, today);
    var after := files - removed;
    PruneKeeps(files, stem, maxFiles, removed);
    var w := Written(after, name, false, line, now);
    var kept := MatchingNames(after, stem);
    assert MatchingNames(w, stem) <= kept + {name};
    SubsetCard(MatchingNames(w, stem), kept + {name});
    if name in kept {
      assert kept + {name} == kept;
    }
  }

  /** A sink started on an empty directory keeps just today's file. */
  lemma FirstFile(stem: string, d: Date, now: int, removed: set<string>)
    requires stem != [] && '.' !in stem
    requires IsPruneSelection(Opened(map[], DatedName(stem + ".log", d), now), stem, 5, removed)
    ensures removed == {}
  {
    ChannelBaseName(stem);
    DatedNameMatches(stem + ".log", d);
    var n := DatedName(stem + ".log", d);
    assert MatchingNames(Opened(map[], n, now), stem) == {n};
  }

  /** One matching file is within any limit of at least one. */
  lemma SingleFileKept(files: map<string, FileState>, n: string, stem: string, removed: set<string>)
    requires files.Keys == {n} && MatchesPattern(n, stem)
    requires IsPruneSelection(files, stem, 5, removed)
    ensures removed == {}
  {
    assert MatchingNames(files, stem) == {n};
  }

  lemma FirstWrite(n1: string, r1: string)
    ensures Written(map[n1 := FileState(0, [])], n1, true, r1, 1) == map[n1 := FileState(1, [r1])]
  {
    assert [] + [r1] == [r1];
  }

  lemma SecondWrite(n1: string, n2: string, r1: string, r2: string, removed: set<string>)
    requires n1 != n2
    requires removed == {}
    ensures Written(map[n1 := FileState(1, [r1])] - (removed - {}), n2, false, r2, 2)
      == map[n1 := FileState(1, [r1]), n2 := FileState(2, [r2])]
  {
    var f1 := map[n1 := FileState(1, [r1])];
    assert f1 - (removed - {}) == f1;
    assert Opened(f1, n2, 2) == f1[n2 := FileState(2, [])];
    assert [] + [r2] == [r2];
  }

  lemma OnlyToday(n: string, removed: set<string>)
    requires removed == {}
    ensures Opened(map[], n, 0) - (removed - {}) == map[n := FileState(0, [])]
  {
  }

  /** A sink for `{dir}/{stem}.log` keeping five files, started on an empty
      directory: only today's empty file exists. */
  method StartOnEmpty(dirName: string, stem: string, d: Date) returns (h: DateRotatingFileHandler)
    requires stem != [] && '.' !in stem
    ensures fresh(h) && fresh(h.dir) && h.Valid()
    ensures h.baseFilename == FilePath(dirName, stem + ".log") && h.maxFiles == 5
    ensures h.currentDate == d && h.streamOpen
    ensures h.dir.files == map[DatedName(stem + ".log", d) := FileState(0, [])]
  {
    ChannelBaseName(stem);
    var dir := new Directory(map[]);
    h := new DateRotatingFileHandler(FilePath(dirName, stem + ".log"), 5, dir, d, 0, {});
    FirstFile(stem, d, 0, h.lastRemoved);
    OnlyToday(DatedName(stem + ".log", d), h.lastRemoved);
  }

  /** A day boundary: a record before it and a record after it end up in two
      different dated files, each holding exactly its own record. */
  method DayBoundary(dirName: string, stem: string, d1: Date, d2: Date, r1: string, r2: string)
    returns (files: map<string, FileState>)
    requires stem != [] && '.' !in stem
    requires d1 != d2
    ensures DatedName(stem + ".log", d1) != DatedName(stem + ".log", d2)
    ensures DatedName(stem + ".log", d1) in files && files[DatedName(stem + ".log", d1)].lines == [r1]
    ensures DatedName(stem + ".log", d2) in files && files[DatedName(stem + ".log", d2)].lines == [r2]
  {
    var n1 := DatedName(stem + ".log", d1);
    var n2 := DatedName(stem + ".log", d2);
    DatedNameInjective(stem + ".log", d1, d2);
    ChannelBaseName(stem);
    DatedNameMatches(stem + ".log", d1);
    var h := StartOnEmpty(dirName, stem, d1);
    h.Emit(r1, d1, 1, {});
    FirstWrite(n1, r1);
    ghost var f1 := map[n1 := FileState(1, [r1])];
    assert h.dir.files == f1;
    h.Emit(r2, d2, 2, {});
    SingleFileKept(f1, n1, stem, h.lastRemoved);
    SecondWrite(n1, n2, r1, r2, h.lastRemoved);
    files := h.dir.files;
  }
}
