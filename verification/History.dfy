/** The bounded message history (pkg/msgstore/store.go): the last entries in memory, all of them on file.

    Saving accepts any entry, but a file is read back line by line with a scanner whose buffer is limited:
    at the first line that does not fit it stops without an error, and this and all later lines are lost to
    memory.  `line` is the length of an entry's line in bytes, without its line feed. */
module History {
  import opened Common

  datatype EntryType = Sent | Received

  datatype Entry = Entry(at: string, kind: EntryType, msg: string, line: nat)

  /** The scanner's buffer, which has to hold a line and its line feed. */
  const SCAN_BUFFER := 65536

  predicate Readable(e: Entry) {
    e.line + 1 <= SCAN_BUFFER
  }

  /** What the scanner reads of a file. */
  function Scanned(file: seq<Entry>): (read: seq<Entry>)
    ensures read <= file
    ensures forall e :: e in read ==> Readable(e)
    ensures |read| < |file| ==> !Readable(file[|read|])
  {
    if file == [] || !Readable(file[0]) then [] else [file[0]] + Scanned(file[1..])
  }

  predicate AllReadable(file: seq<Entry>) {
    forall i :: 0 <= i < |file| ==> Readable(file[i])
  }

  /** The last n entries of a log, or all of it. */
  function Last(log: seq<Entry>, n: nat): (r: seq<Entry>)
    ensures |r| == if |log| <= n then |log| else n
    ensures forall i :: 0 <= i < |r| ==> r[i] == log[|log| - |r| + i]
  {
    if |log| <= n then log else log[|log| - n..]
  }

  /** A scan ends at the first line that does not fit. */
  lemma {:induction false} ScannedIs(file: seq<Entry>, i: nat)
    requires i <= |file| && AllReadable(file[..i]) && (i < |file| ==> !Readable(file[i]))
    ensures Scanned(file) == file[..i]
    decreases i
  {
    if i == 0 {
    } else {
      assert file[..i][0] == file[0];
      assert file[1..][..i - 1] == file[..i][1..];
      ScannedIs(file[1..], i - 1);
    }
  }

  /** Scans the file and keeps the last entries read. */
  method LoadFromFile(max: nat, existing: seq<Entry>) returns (loaded: seq<Entry>)
    ensures loaded == Last(Scanned(existing), max)
  {
    loaded := [];
    var i := 0;
    while i < |existing| && Readable(existing[i])
      invariant 0 <= i <= |existing|
      invariant loaded == existing[..i] && AllReadable(loaded)
    {
      loaded := loaded + [existing[i]];
      i := i + 1;
    }
    ScannedIs(existing, i);
    if |loaded| > max {
      loaded := loaded[|loaded| - max..];
    }
  }

  datatype Event = SaveEntry(entry: Entry) | Reopen

  datatype Memory = Memory(entries: seq<Entry>, file: seq<Entry>)

  /** What a save or a reopening makes of a store that has a file. */
  function Step(m: Memory, max: nat, ev: Event): Memory {
    match ev
    case SaveEntry(e) => Memory(Last(m.entries + [e], max), m.file + [e])
    case Reopen => Memory(Last(Scanned(m.file), max), m.file)
  }

  /** `file` is what the file holds when there is one. */
  class Store {
    const max: nat
    const onFile: bool
    var entries: seq<Entry>
    var file: seq<Entry>
    ghost var known: seq<Entry>        // what was read at the opening and all saved since

    ghost predicate Valid()
      reads this
    {
      entries == Last(known, max)
    }

    function View(): Memory
      reads this
    {
      Memory(entries, file)
    }

    constructor New(max: nat)
      ensures Valid() && this.max == max && !onFile && known == [] && View() == Memory([], [])
    {
      this.max, onFile, entries, file, known := max, false, [], [], [];
    }

    /** Opens a store on a file that an earlier store, of whatever size, may have left. */
    constructor NewWithFile(max: nat, existing: seq<Entry>)
      ensures Valid() && this.max == max && onFile && known == Scanned(existing)
      ensures forall before :: View() == Step(Memory(before, existing), max, Reopen)
    {
      var loaded := LoadFromFile(max, existing);
      this.max, onFile, entries, file := max, true, loaded, existing;
      known := Scanned(existing);
    }

    method Save(entry: Entry)
      requires Valid()
      modifies this
      ensures Valid() && known == old(known) + [entry]
      ensures View() == if onFile then Step(old(View()), max, SaveEntry(entry))
                        else Memory(Last(old(entries) + [entry], max), old(file))
    {
      SaveKeepsWindow(known, max, entry);
      entries := entries + [entry];
      if |entries| > max {
        entries := entries[|entries| - max..];
      }
      if onFile {
        file := file + [entry];
      }
      known := known + [entry];
    }

    method Latest(n: nat) returns (out: seq<Entry>)
      requires Valid()
      ensures out == Last(known, if n <= max then n else max)
    {
      LastOfLast(known, max, n);
      if n >= |entries| {
        return entries;
      }
      out := entries[|entries| - n..];
    }
  }

  lemma SaveKeepsWindow(log: seq<Entry>, max: nat, entry: Entry)
    ensures Last(Last(log, max) + [entry], max) == Last(log + [entry], max)
  {
  }

  lemma LastOfLast(log: seq<Entry>, max: nat, n: nat)
    ensures Last(Last(log, max), n) == Last(log, if n <= max then n else max)
  {
  }

  // ---- any sequence of saves and reopenings --------------------------------------------------------

  function RunAll(m: Memory, max: nat, evs: seq<Event>): Memory
    decreases |evs|
  {
    if evs == [] then m else RunAll(Step(m, max, evs[0]), max, evs[1..])
  }

  /** A file as the last opening found it, and what has been saved since. */
  datatype Past = Past(found: seq<Entry>, since: seq<Entry>)

  function Later(p: Past, ev: Event): Past {
    match ev
    case SaveEntry(e) => p.(since := p.since + [e])
    case Reopen => Past(p.found + p.since, [])
  }

  function LaterAll(p: Past, evs: seq<Event>): Past
    decreases |evs|
  {
    if evs == [] then p else LaterAll(Later(p, evs[0]), evs[1..])
  }

  /** The memory and the file that belong to a past. */
  function MemoryOf(p: Past, max: nat): Memory {
    Memory(Last(Scanned(p.found) + p.since, max), p.found + p.since)
  }

  lemma OneSave(max: nat, p: Past, e: Entry)
    ensures Step(MemoryOf(p, max), max, SaveEntry(e)) == MemoryOf(Later(p, SaveEntry(e)), max)
  {
    var read, since := Scanned(p.found), p.since;
    Regroup(read, since, e);
    Regroup(p.found, since, e);
    SaveKeepsWindow(read + since, max, e);
    var more := Last(read + since, max) + [e];
    assert MemoryOf(p, max).entries + [e] == more;
  }

  lemma Regroup(a: seq<Entry>, b: seq<Entry>, e: Entry)
    ensures a + b + [e] == a + (b + [e])
  {
  }

  lemma OneReopening(max: nat, p: Past)
    ensures Step(MemoryOf(p, max), max, Reopen) == MemoryOf(Later(p, Reopen), max)
  {
    var file := p.found + p.since;
    assert file + [] == file && Scanned(file) + [] == Scanned(file);
  }

  /** However saves and reopenings alternate, the file holds everything ever saved, and memory the last max
      entries of what the last opening could read followed by what was saved since. */
  lemma {:induction false} WindowOfLog(max: nat, p: Past, evs: seq<Event>)
    ensures RunAll(MemoryOf(p, max), max, evs) == MemoryOf(LaterAll(p, evs), max)
    decreases |evs|
  {
    if evs == [] {
    } else {
      match evs[0] {
        case SaveEntry(e) => OneSave(max, p, e);
        case Reopen => OneReopening(max, p);
      }
      WindowOfLog(max, Later(p, evs[0]), evs[1..]);
    }
  }

  /** A file without an overlong line is read in full. */
  lemma {:induction false} ReadsAll(file: seq<Entry>)
    ensures Scanned(file) == file <==> AllReadable(file)
    decreases |file|
  {
    if file == [] {
    } else if Readable(file[0]) {
      ReadsAll(file[1..]);
      assert file == [file[0]] + file[1..];
      assert AllReadable(file) ==> AllReadable(file[1..]);
    } else {
      assert !AllReadable(file);
    }
  }

  /** Two windows whose ends are shifted against each other differ. */
  lemma WindowsDiffer(read: seq<Entry>, file: seq<Entry>, since: seq<Entry>, max: nat)
    requires read <= file && |read| < |file| && |since| < max && Distinct(file + since)
    ensures Last(read + since, max) != Last(file + since, max)
  {
    var a, b := |read| + |since|, |file| + |since|;
    if a >= max {
      assert Last(read + since, max)[0] == (read + since)[a - max] == file[a - max];
      assert Last(file + since, max)[0] == (file + since)[b - max] == file[b - max];
      assert file[a - max] == (file + since)[a - max];
    }
  }

  /** Memory holds the last max entries of everything ever saved if and only if the last opening found no
      overlong line, or so much has been saved since that nothing older would be in memory anyway.  Entries
      carry the time of their saving; equal ones could make two different windows look the same. */
  lemma WindowIsLogIff(max: nat, p: Past)
    requires Distinct(p.found + p.since)
    ensures MemoryOf(p, max).entries == Last(p.found + p.since, max) <==> AllReadable(p.found) || |p.since| >= max
  {
    ReadsAll(p.found);
    if !AllReadable(p.found) && |p.since| < max {
      WindowsDiffer(Scanned(p.found), p.found, p.since, max);
    } else if |p.since| >= max {
      LongTail(Scanned(p.found), p.since, max);
      LongTail(p.found, p.since, max);
    }
  }

  lemma LongTail(a: seq<Entry>, b: seq<Entry>, max: nat)
    requires |b| >= max
    ensures Last(a + b, max) == b[|b| - max..]
  {
  }

  /** So after any saves and reopenings, ending with a reopening, a positive window shows the end of the log
      if and only if nothing saved so far has an overlong line. */
  lemma ReopenedWindowIff(max: nat, evs: seq<Event>)
    requires max > 0 && evs != [] && evs[|evs| - 1] == Reopen
    requires Distinct(LaterAll(Past([], []), evs).found)
    ensures var m := RunAll(Memory([], []), max, evs);
            m.entries == Last(m.file, max) <==> AllReadable(m.file)
  {
    var start := Past([], []);
    WindowOfLog(max, start, evs);
    EndsReopened(start, evs);
    var p := LaterAll(start, evs);
    assert p.found + [] == p.found;
    WindowIsLogIff(max, p);
  }

  lemma {:induction false} EndsReopened(p: Past, evs: seq<Event>)
    requires evs != [] && evs[|evs| - 1] == Reopen
    ensures LaterAll(p, evs).since == []
    decreases |evs|
  {
    if |evs| == 1 {
    } else {
      EndsReopened(Later(p, evs[0]), evs[1..]);
    }
  }

  /** A line of 65535 bytes is the longest that a reopening can read. */
  lemma LongestLine(max: nat, e: Entry)
    requires max > 0
    ensures RunAll(Memory([], []), max, [SaveEntry(e), Reopen]).entries == [e] <==> e.line <= 65535
  {
    var evs := [SaveEntry(e), Reopen];
    assert evs[1..] == [Reopen] && evs[1..][1..] == [];
    var saved := Step(Memory([], []), max, SaveEntry(e));
    assert saved.file == [e];
    var reopened := Step(saved, max, Reopen);
    assert RunAll(reopened, max, []) == reopened;
    assert RunAll(saved, max, [Reopen]) == reopened;
    ReadsAll([e]);
  }

  /** One overlong entry is enough to lose the next one, whatever it is, at a reopening. */
  lemma OverlongEntryHidesLaterOnes(max: nat, long: Entry, later: Entry)
    requires !Readable(long)
    ensures var m := RunAll(Memory([], []), max, [SaveEntry(long), SaveEntry(later), Reopen]);
            m.file == [long, later] && m.entries == []
  {
    var evs := [SaveEntry(long), SaveEntry(later), Reopen];
    var start := Past([], []);
    assert evs[1..] == [SaveEntry(later), Reopen] && evs[1..][1..] == [Reopen] && evs[1..][1..][1..] == [];
    assert [] + [long] == [long] && [long] + [later] == [long, later] && [] + [long, later] == [long, later];
    assert LaterAll(start, evs) == LaterAll(Past([], [long]), evs[1..]);
    assert LaterAll(Past([], [long]), evs[1..]) == LaterAll(Past([], [long, later]), [Reopen]);
    assert LaterAll(Past([], [long, later]), [Reopen]) == LaterAll(Past([long, later], []), []);
    WindowOfLog(max, start, evs);
    assert MemoryOf(start, max) == Memory([], []);
    assert MemoryOf(Past([long, later], []), max) == Memory([], [long, later]);
  }
}
