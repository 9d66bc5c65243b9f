/**
 The persisted counters: the file format, the store object, and what a reload finds after any
 sequence of updates, I/O errors and a crash.
*/
module Counter {
  import opened Prelude
  import opened Text
  import opened Ledger
  import opened Disk

  // ---- The file format -------------------------------------------------------------------------

  function Field(key: string, n: U64): string {
    key + "=" + Show(n)
  }

  function Render(c: Counters): string {
    Field("session", c.session) + "\n" + Field("total", c.total) + "\n"
  }

  function ParseLine(c: Counters, line: string): Option<Counters> {
    match SplitOnce(line, '=')
    case None => None
    case Some((k, v)) =>
      match ParseU64(Trim(v))
      case None => None
      case Some(n) =>
        if Trim(k) == "session" then Some(c.(session := n))
        else if Trim(k) == "total" then Some(c.(total := n))
        else Some(c)
  }

  function ParseLines(lines: seq<string>): Option<Counters> {
    if lines == [] then Some(ZERO)
    else
      match ParseLines(lines[..|lines| - 1])
      case None => None
      case Some(c) => ParseLine(c, lines[|lines| - 1])
  }

  function Parsed(s: string): Option<Counters> {
    ParseLines(Lines(s))
  }

  lemma {:induction false} BadPrefixStaysBad(lines: seq<string>, n: nat)
    requires n <= |lines| && ParseLines(lines[..n]) == None
    ensures ParseLines(lines) == None
    decreases |lines|
  {
    if n == |lines| {
      assert lines[..n] == lines;
    } else {
      var front := lines[..|lines| - 1];
      assert front[..n] == lines[..n];
      BadPrefixStaysBad(front, n);
    }
  }

  method Parse(s: string) returns (r: Option<Counters>)
    ensures r == Parsed(s)
  {
    var c := ZERO;
    var lines := Lines(s);
    for i := 0 to |lines|
      invariant ParseLines(lines[..i]) == Some(c)
    {
      assert lines[..i + 1][..i] == lines[..i];
      var next := ParseLine(c, lines[i]);
      if next.None? {
        BadPrefixStaysBad(lines, i + 1);
        return None;
      }
      c := next.value;
    }
    assert lines[..|lines|] == lines;
    return Some(c);
  }

  lemma DigitsAreSolid(n: nat)
    ensures Trim(Show(n)) == Show(n)
    ensures '\n' !in Show(n) && Show(n)[|Show(n)| - 1] != '\r'
  {
    ShowIsDigits(n);
    TrimSolid(Show(n));
  }

  predicate IsKey(key: string) {
    key == "session" || key == "total"
  }

  /** A rendered key/value line is read back into its field. */
  lemma FieldReadsBack(c: Counters, key: string, n: U64)
    requires IsKey(key)
    ensures ParseLine(c, Field(key, n)) == Some(if key == "session" then c.(session := n) else c.(total := n))
  {
    var line := Field(key, n);
    IndexOfBoundary(key, '=', Show(n));
    assert line == key + ['='] + Show(n);
    assert line[..|key|] == key && line[|key| + 1..] == Show(n);
    DigitsAreSolid(n);
    ShowParses(n);
    TrimSolid(key);
  }

  lemma FieldIsOneLine(key: string, n: U64)
    requires IsKey(key)
    ensures var line := Field(key, n);
            '\n' !in line && line != "" && line[|line| - 1] != '\r'
  {
    DigitsAreSolid(n);
    assert Field(key, n)[|Field(key, n)| - 1] == Show(n)[|Show(n)| - 1];
    assert '\n' !in key + "=";
  }

  lemma LinesOfRaw(line: string, rest: string)
    requires '\n' !in line
    ensures Lines(line + "\n" + rest) == [StripCarriageReturn(line)] + Lines(rest)
  {
    var s := line + "\n" + rest;
    IndexOfBoundary(line, '\n', rest);
    assert s == line + ['\n'] + rest;
    assert s[..|line|] == line && s[|line| + 1..] == rest;
  }

  /** The lines of a text that starts with a terminated line; a carriage return belongs to the terminator. */
  lemma LinesOfLine(line: string, rest: string)
    requires '\n' !in line && (line != "" ==> line[|line| - 1] != '\r')
    ensures Lines(line + "\n" + rest) == [line] + Lines(rest)
    ensures Lines(line + "\r\n" + rest) == [line] + Lines(rest)
    ensures line != "" ==> Lines(line) == [line]
  {
    LinesOfRaw(line, rest);
    LinesOfRaw(line + "\r", rest);
    assert line + "\r\n" + rest == (line + "\r") + "\n" + rest;
    assert (line + "\r")[..|line|] == line;
    assert IndexOf(line, '\n') == |line|;
  }

  lemma TwoLinesJoin(first: string, second: string)
    ensures first + "\n" + second + "\n" == first + "\n" + (second + "\n" + "")
  {
  }

  lemma RenderIsTwoLines(c: Counters)
    ensures Lines(Render(c)) == [Field("session", c.session), Field("total", c.total)]
  {
    assert Lines("") == [];
    hide Lines, Field;
    var first, second := Field("session", c.session), Field("total", c.total);
    FieldIsOneLine("session", c.session);
    FieldIsOneLine("total", c.total);
    LinesOfLine(first, second + "\n" + "");
    LinesOfLine(second, "");
    TwoLinesJoin(first, second);
    assert Render(c) == first + "\n" + second + "\n";
  }

  lemma ParseTwoLines(first: string, second: string)
    ensures ParseLines([first, second])
         == if ParseLine(ZERO, first).None? then None else ParseLine(ParseLine(ZERO, first).value, second)
  {
    var one, two := [first], [first, second];
    assert one[..|one| - 1] == [];
    assert ParseLines(one) == ParseLine(ZERO, first);
    assert two[..|two| - 1] == one;
  }

  /** Round trip: whatever pair of counters is written, the same pair is read. */
  lemma RenderParses(c: Counters)
    ensures Parsed(Render(c)) == Some(c)
  {
    RenderIsTwoLines(c);
    ParseTwoLines(Field("session", c.session), Field("total", c.total));
    FieldReadsBack(ZERO, "session", c.session);
    FieldReadsBack(Counters(c.session, 0), "total", c.total);
  }

  /** The file format, byte for byte. */
  lemma FormatIsFixed(c: Counters)
    ensures Render(c) == "session=" + Show(c.session) + "\ntotal=" + Show(c.total) + "\n"
  {
  }

  // ---- The meaning of any text -------------------------------------------------------------------

  /** What loading finds: nothing or nonsense counts as zero. */
  function CountersIn(content: Option<string>): Counters {
    match content
    case None => ZERO
    case Some(s) => if Parsed(s).None? then ZERO else Parsed(s).value
  }

  /** The two sides of the first equals sign, without the white space around them. */
  function KeyOf(line: string): string {
    Trim(line[..IndexOf(line, '=')])
  }

  function ValueOf(line: string): string
    requires '=' in line
  {
    Trim(line[IndexOf(line, '=') + 1..])
  }

  /** The line has an equals sign and, behind it, a numeral that fits 64 bits. */
  ghost predicate GoodLine(line: string) {
    '=' in line && Unsigned(ValueOf(line)) != "" && FitsU64(Unsigned(ValueOf(line)))
  }

  ghost predicate AllGood(lines: seq<string>) {
    forall i :: 0 <= i < |lines| ==> GoodLine(lines[i])
  }

  /** The value of the last line with the given key, or 0 if there is none. */
  ghost function LastValue(lines: seq<string>, key: string): nat
    requires AllGood(lines)
  {
    if lines == [] then 0
    else
      var last := lines[|lines| - 1];
      if KeyOf(last) == key then NumeralValue(Unsigned(ValueOf(last)))
      else LastValue(lines[..|lines| - 1], key)
  }

  lemma LineMeans(c: Counters, line: string)
    ensures ParseLine(c, line).Some? <==> GoodLine(line)
    ensures GoodLine(line) ==>
      var d, n := ParseLine(c, line).value, NumeralValue(Unsigned(ValueOf(line)));
      && d.session == (if KeyOf(line) == "session" then n else c.session)
      && d.total == (if KeyOf(line) == "total" then n else c.total)
  {
    if '=' in line {
      ParseU64IsValue(ValueOf(line));
    }
  }

  lemma {:induction false} LinesMean(lines: seq<string>)
    ensures ParseLines(lines).Some? <==> AllGood(lines)
    ensures AllGood(lines) ==>
      && ParseLines(lines).value.session == LastValue(lines, "session")
      && ParseLines(lines).value.total == LastValue(lines, "total")
  {
    hide ParseLine, GoodLine, KeyOf, NumeralValue;
    if lines == [] {
    } else {
      var front, last := lines[..|lines| - 1], lines[|lines| - 1];
      LinesMean(front);
      assert AllGood(lines) <==> AllGood(front) && GoodLine(last);
      if AllGood(front) {
        LineMeans(ParseLines(front).value, last);
      }
    }
  }

  /** What a counter file with this text stands for: nothing but zeros if any of its lines is not a key and a
      number, and otherwise the last value given for each counter; other keys are skipped. */
  ghost predicate Means(text: string, c: Counters) {
    if AllGood(Lines(text)) then
      c.session == LastValue(Lines(text), "session") && c.total == LastValue(Lines(text), "total")
    else c.session == 0 && c.total == 0
  }

  lemma ParsedMeans(text: string)
    ensures Parsed(text).Some? <==> AllGood(Lines(text))
    ensures Means(text, CountersIn(Some(text)))
  {
    hide ParseLines, GoodLine, Lines;
    LinesMean(Lines(text));
  }

  // ---- Journals of updates ---------------------------------------------------------------------

  function Loaded(d: Files, path: Path): Counters {
    CountersIn(Read(d, path.name))
  }

  /** Loading in terms of the file's text, and the round trip through it. */
  lemma LoadedMeans(d: Files, path: Path)
    ensures path.name !in d ==> Loaded(d, path) == Counters(0, 0)
    ensures path.name in d ==> Means(d[path.name].content, Loaded(d, path))
    ensures path.name in d ==> forall c: Counters :: d[path.name].content == Render(c) ==> Loaded(d, path) == c
  {
    hide Render, Parsed, Means;
    if path.name in d {
      ParsedMeans(d[path.name].content);
      forall c: Counters | d[path.name].content == Render(c)
        ensures Loaded(d, path) == c
      {
        RenderParses(c);
      }
    }
  }

  /** The persist attempts made by booking `entries`, the i-th one getting through dones[i] operations. */
  function Journal(c: Counters, entries: seq<Entry>, dones: seq<nat>): seq<Attempt>
    requires |dones| == |entries|
  {
    if entries == [] then []
    else
      Journal(c, entries[..|entries| - 1], dones[..|entries| - 1])
      + [Attempt(Render(Replay(c, entries)), dones[|entries| - 1])]
  }

  /** How many entries the last completed persist covered. */
  ghost function Covered(path: Path, attempts: seq<Attempt>): nat
    ensures Covered(path, attempts) <= |attempts|
  {
    if attempts == [] then 0
    else if Complete(path, attempts[|attempts| - 1]) then |attempts|
    else Covered(path, attempts[..|attempts| - 1])
  }

  lemma {:induction false} JournalLength(c: Counters, entries: seq<Entry>, dones: seq<nat>)
    requires |dones| == |entries|
    ensures |Journal(c, entries, dones)| == |entries|
  {
    if entries == [] {
    } else {
      JournalLength(c, entries[..|entries| - 1], dones[..|entries| - 1]);
    }
  }

  lemma JournalOneMore(c: Counters, entries: seq<Entry>, dones: seq<nat>, entry: Entry, done: nat)
    requires |dones| == |entries|
    ensures Replay(c, entries + [entry]) == Book(Replay(c, entries), entry)
    ensures Journal(c, entries + [entry], dones + [done])
         == Journal(c, entries, dones) + [Attempt(Render(Book(Replay(c, entries), entry)), done)]
  {
    hide Render, Book;
    assert (entries + [entry])[..|entries|] == entries && (dones + [done])[..|dones|] == dones;
  }

  /** A completed persist covers everything. */
  lemma CoveredOneMore(path: Path, attempts: seq<Attempt>, a: Attempt)
    ensures Complete(path, a) <==> a.done == |Script(path, a.text)|
    ensures Complete(path, a) ==> Covered(path, attempts + [a]) == |attempts| + 1
  {
    hide Script;
  }

  lemma CommittedOneMore(d: Files, path: Path, attempts: seq<Attempt>, a: Attempt)
    ensures Covered(path, attempts + [a]) == if Complete(path, a) then |attempts| + 1 else Covered(path, attempts)
    ensures Committed(d, path, attempts + [a])
         == if Complete(path, a) then Some(a.text) else Committed(d, path, attempts)
  {
    hide Complete;
    assert (attempts + [a])[..|attempts|] == attempts;
  }

  lemma {:induction false} CommittedCovers(d: Files, path: Path, entries: seq<Entry>, dones: seq<nat>)
    requires |dones| == |entries|
    ensures var attempts := Journal(Loaded(d, path), entries, dones); var k := Covered(path, attempts);
            && k <= |entries|
            && Committed(d, path, attempts)
            == if k == 0 then Read(d, path.name) else Some(Render(Replay(Loaded(d, path), entries[..k])))
  {
    hide Render, Read, CountersIn, Complete, Replay;
    if entries == [] {
    } else {
      var n, c := |entries| - 1, Loaded(d, path);
      var front := Journal(c, entries[..n], dones[..n]);
      CommittedCovers(d, path, entries[..n], dones[..n]);
      JournalLength(c, entries[..n], dones[..n]);
      hide Loaded, Covered, Committed;
      CommittedOneMore(d, path, front, Attempt(Render(Replay(c, entries)), dones[n]));
      assert entries[..n + 1] == entries;
      assert entries[..n][..Covered(path, front)] == entries[..Covered(path, front)];
    }
  }

  /** What a commit of `c` reloads as, or the loaded counters if nothing was committed. */
  lemma CommitReloads(d: Files, path: Path, c: Counters, none: bool)
    ensures CountersIn(if none then Read(d, path.name) else Some(Render(c))) == if none then Loaded(d, path) else c
  {
    hide Parsed, Render;
    RenderParses(c);
  }

  /**
   Crash atomicity. Book any entries; let any of the persists fail at any operation, and let the
   machine crash during the last one. A reload finds exactly the counters as they were after the
   entries that the last completed rename covered, and a completed last persist covers them all.
  */
  lemma ReloadAfterCrash(d: Files, path: Path, entries: seq<Entry>, dones: seq<nat>)
    requires |dones| == |entries| && Extension(path.name) != Some("tmp")
    requires WellFormed(path, Journal(Loaded(d, path), entries, dones))
    ensures var attempts := Journal(Loaded(d, path), entries, dones); var k := Covered(path, attempts);
            && k <= |entries|
            && Loaded(DiskAfter(d, path, attempts), path) == Replay(Loaded(d, path), entries[..k])
  {
    hide Render, Script, CountersIn, DiskAfter;
    var c, attempts := Loaded(d, path), Journal(Loaded(d, path), entries, dones);
    ReadIsCommitted(d, path, attempts);
    CommittedCovers(d, path, entries, dones);
    var k := Covered(path, attempts);
    CommitReloads(d, path, Replay(c, entries[..k]), k == 0);
    assert entries[..0] == [];
  }

  /** One update seen from the disk: an interrupted or failed one changes nothing that a reload sees,
      a completed one makes the reload see exactly the counters in memory. */
  lemma ReloadAfterOneUpdate(d: Files, path: Path, c: Counters, done: nat)
    requires Extension(path.name) != Some("tmp") && done <= |Script(path, Render(c))|
    ensures Loaded(Partial(d, path, Render(c), done), path)
         == if done == |Script(path, Render(c))| then c else Loaded(d, path)
  {
    CrashAtomicIff(path);
    assert Read(Partial(d, path, Render(c), done), path.name)
        == if done == |Script(path, Render(c))| then Some(Render(c)) else Read(d, path.name);
    RenderParses(c);
  }

  /** The i-th attempt of a journal and the attempts before it. */
  lemma {:induction false} JournalAt(c: Counters, entries: seq<Entry>, dones: seq<nat>, i: nat)
    requires |dones| == |entries| && i < |entries|
    ensures |Journal(c, entries, dones)| == |entries|
    ensures Journal(c, entries, dones)[..i] == Journal(c, entries[..i], dones[..i])
    ensures Journal(c, entries, dones)[i] == Attempt(Render(Replay(c, entries[..i + 1])), dones[i])
    decreases |entries|
  {
    hide Render;
    var n := |entries| - 1;
    JournalLength(c, entries, dones);
    JournalLength(c, entries[..n], dones[..n]);
    if i == n {
      assert entries[..i + 1] == entries;
    } else {
      JournalAt(c, entries[..n], dones[..n], i);
      assert entries[..n][..i] == entries[..i] && dones[..n][..i] == dones[..i];
      assert entries[..n][..i + 1] == entries[..i + 1];
    }
  }

  /** The same after a power loss: whatever earlier version of the directory survives, taken after j
      operations of the i-th update, the reload finds the counters after some prefix of the entries,
      the one that had been committed at that instant. */
  lemma ReloadAfterPowerLoss(
    d: Files, path: Path, entries: seq<Entry>, dones: seq<nat>, i: nat, j: nat, found: Option<string>)
    requires |dones| == |entries| && Extension(path.name) != Some("tmp")
    requires path.name in d ==> d[path.name].synced
    requires i < |entries| && j <= dones[i]
    requires WellFormed(path, Journal(Loaded(d, path), entries, dones))
    requires var c := Loaded(d, path);
             var text := Render(Replay(c, entries[..i + 1]));
             j <= |Script(path, text)|
             && PowerLossReads(
                  Partial(DiskAfter(d, path, Journal(c, entries[..i], dones[..i])), path, text, j), path.name, found)
    ensures var k := Covered(path, Journal(Loaded(d, path), entries[..i + 1], dones[..i] + [j]));
            && k <= i + 1
            && CountersIn(found) == Replay(Loaded(d, path), entries[..k])
  {
    hide Render, Script, CountersIn, Parsed, DiskAfter, Partial, PowerLossReads;
    var c := Loaded(d, path);
    var attempts := Journal(c, entries, dones);
    var upTo, cutDones := entries[..i + 1], dones[..i] + [j];
    JournalLength(c, entries, dones);
    JournalAt(c, entries, dones, i);
    var cut := Journal(c, upTo, cutDones);
    assert upTo[..i] == entries[..i] && cutDones[..i] == dones[..i];
    assert cut == attempts[..i] + [Attempt(attempts[i].text, j)];
    PowerLossReadsACommit(d, path, attempts, i, j, found);
    CommittedCovers(d, path, upTo, cutDones);
    var k := Covered(path, cut);
    JournalLength(c, upTo, cutDones);
    assert upTo[..k] == entries[..k];
    CommitReloads(d, path, Replay(c, entries[..k]), k == 0);
    assert entries[..0] == [];
  }

  // ---- The store -------------------------------------------------------------------------------

  datatype IoError = NotFound | OtherError

  /** How one call into the file system turns out; a failing write may still have written a part. */
  datatype Outcome = Outcome(ok: bool, written: nat)

  /** A directory together with the outcomes of all calls made on it. */
  class Volume {
    var files: Files
    var calls: nat
    const outcome: nat -> Outcome

    constructor (files: Files, outcome: nat -> Outcome)
      ensures this.files == files && this.outcome == outcome && calls == 0
    {
      this.files, this.outcome, calls := files, outcome, 0;
    }

    /** The n calls from number `from` on all succeed. */
    ghost predicate AllSucceed(from: nat, n: nat) {
      forall i: nat :: from <= i < from + n ==> outcome(i).ok
    }

    /** No call ever fails. */
    ghost predicate Works() {
      forall i: nat :: outcome(i).ok
    }

    method ReadToString(name: FileName) returns (r: Result<string, IoError>)
      modifies `calls
      ensures calls == old(calls) + 1
      ensures r == if !outcome(old(calls)).ok || !Readable(files, name) then Err(OtherError)
                   else if name in files then Ok(files[name].content) else Err(NotFound)
    {
      calls := calls + 1;
      if !outcome(calls - 1).ok || !Readable(files, name) {
        return Err(OtherError);
      }
      r := if name in files then Ok(files[name].content) else Err(NotFound);
    }

    method Perform(op: Op) returns (ok: bool)
      modifies this
      ensures calls == old(calls) + 1 && ok == outcome(old(calls)).ok
      ensures files == if ok then Apply(old(files), op) else old(files)
    {
      calls := calls + 1;
      ok := outcome(calls - 1).ok;
      if ok {
        files := Apply(files, op);
      }
    }

    method WriteText(name: FileName, text: string) returns (ok: bool, ghost n: nat)
      modifies this
      ensures calls == old(calls) + 1 && ok == outcome(old(calls)).ok
      ensures n == if ok then |text| else Min(outcome(old(calls)).written, |text|)
      ensures files == Run(old(files), Appends(name, text)[..n])
    {
      calls := calls + 1;
      ok := outcome(calls - 1).ok;
      var goal := if ok then |text| else Min(outcome(calls - 1).written, |text|);
      n := goal;
      for i := 0 to goal
        invariant calls == old(calls) + 1
        invariant files == Run(old(files), Appends(name, text)[..i])
      {
        assert Appends(name, text)[..i + 1] == Appends(name, text)[..i] + [Append(name, text[i])];
        RunAppend(old(files), Appends(name, text)[..i], Append(name, text[i]));
        files := Apply(files, Append(name, text[i]));
      }
    }
  }

  /** The calls of a persist in which none fails: the opening ones, the write, the sync and the rename. */
  function CallsPerPersist(path: Path): nat {
    |Opening(path)| + 3
  }

  class CounterStore {
    const path: Path
    const volume: Volume
    var counters: Counters
    /** The directory at load time, every entry booked since, and how far the persist of each one got. */
    ghost const origin: Files
    ghost var entries: seq<Entry>
    ghost var dones: seq<nat>

    ghost function Attempts(): seq<Attempt>
      requires |dones| == |entries|
      reads `entries, `dones
    {
      Journal(Loaded(origin, path), entries, dones)
    }

    /** The disk is the work of the journal, and on a volume that works every persist has completed. */
    ghost predicate Journaled()
      reads `entries, `dones, volume
    {
      && |dones| == |entries|
      && WellFormed(path, Attempts())
      && volume.files == DiskAfter(origin, path, Attempts())
      && Readable(origin, path.name)
      && (volume.Works() ==> Covered(path, Attempts()) == |entries|)
    }

    ghost predicate Valid()
      reads this, volume
    {
      Journaled() && counters == Replay(Loaded(origin, path), entries)
    }

    constructor (path: Path, volume: Volume, counters: Counters)
      requires Readable(volume.files, path.name) && counters == Loaded(volume.files, path)
      ensures this.path == path && this.volume == volume && this.counters == counters
      ensures Valid() && origin == volume.files && entries == []
    {
      this.path, this.volume, this.counters := path, volume, counters;
      origin, entries, dones := volume.files, [], [];
    }

    /** Loading fails exactly if the read fails, or the file is there but not text. */
    static method Load(path: Path, volume: Volume) returns (r: Result<CounterStore, IoError>)
      modifies volume
      ensures volume.files == old(volume.files) && volume.calls == old(volume.calls) + 1
      ensures r.Ok? <==> volume.outcome(old(volume.calls)).ok && Readable(volume.files, path.name)
      ensures r.Err? ==> r.error == OtherError
      ensures r.Ok? ==>
        && fresh(r.value) && r.value.Valid()
        && r.value.path == path && r.value.volume == volume
        && r.value.entries == [] && r.value.origin == volume.files
        && r.value.counters == Loaded(volume.files, path)
      ensures r.Ok? ==>
        && (path.name !in volume.files ==> r.value.counters == Counters(0, 0))
        && (path.name in volume.files ==>
            && Means(volume.files[path.name].content, r.value.counters)
            && forall c: Counters :: volume.files[path.name].content == Render(c) ==> r.value.counters == c)
    {
      LoadedMeans(volume.files, path);
      var counters := ZERO;
      var content := volume.ReadToString(path.name);
      match content {
        case Ok(s) =>
          var parsed := Parse(s);
          counters := if parsed.Some? then parsed.value else ZERO;
        case Err(NotFound) =>
        case Err(e) =>
          return Err(e);
      }
      var store := new CounterStore(path, volume, counters);
      return Ok(store);
    }

    /** Against the earlier state: one more entry booked, and one attempt to persist the new counters,
        complete exactly if the call reported success. */
    ghost predicate Booked(before: Counters, earlier: seq<Entry>, reached: seq<nat>, entry: Entry, ok: bool)
      reads this
    {
      && counters == Book(before, entry)
      && entries == earlier + [entry]
      && |dones| == |reached| + 1 && dones[..|reached|] == reached
      && (ok <==> Complete(path, Attempt(Render(counters), dones[|reached|])))
    }

    /** The disk sees a prefix of the persist script, the whole of it exactly if every call succeeds. */
    method WriteAndRename(text: string) returns (ok: bool, ghost done: nat)
      modifies volume
      ensures done <= |Script(path, text)|
      ensures volume.files == Partial(old(volume.files), path, text, done)
      ensures ok <==> done == |Script(path, text)|
      ensures ok <==> volume.AllSucceed(old(volume.calls), CallsPerPersist(path))
    {
      hide Script, Opening, Partial, Run, Apply, TmpName, Appends;
      var tmp := TmpName(path.name);
      ghost var d := volume.files;
      ScriptLayout(path, text);
      PartialStep(d, path, text, 0);
      done := 0;
      if path.parent != "" {
        ok := volume.Perform(MakeDir);
        if !ok {
          return;
        }
        done := 1;
      }
      PartialStep(d, path, text, done);
      ok := volume.Perform(Create(tmp));
      if !ok {
        return;
      }
      ghost var n: nat;
      ok, n := volume.WriteText(tmp, text);
      PartialAppends(d, path, text, n);
      done := |Opening(path)| + n;
      if !ok {
        return;
      }
      PartialStep(d, path, text, done);
      ok := volume.Perform(Sync(tmp));
      if !ok {
        return;
      }
      done := done + 1;
      PartialStep(d, path, text, done);
      ok := volume.Perform(Rename(tmp, path.name));
      if !ok {
        return;
      }
      done := done + 1;
    }

    method Persist(ghost entry: Entry) returns (ok: bool)
      requires Journaled() && counters == Book(Replay(Loaded(origin, path), entries), entry)
      modifies `entries, `dones, volume
      ensures Valid()
      ensures entries == old(entries) + [entry]
      ensures |dones| == |old(dones)| + 1 && dones[..|old(dones)|] == old(dones)
      ensures ok <==> Complete(path, Attempt(Render(counters), dones[|old(dones)|]))
      ensures ok <==> volume.AllSucceed(old(volume.calls), CallsPerPersist(path))
    {
      hide Render, Script, Partial, DiskAfter, WellFormed, Loaded, Book, Replay, Journal, Covered, Complete;
      ghost var done: nat;
      ok, done := WriteAndRename(Render(counters));
      DiskAfterOneMore(origin, path, Attempts(), Attempt(Render(counters), done));
      JournalOneMore(Loaded(origin, path), entries, dones, entry, done);
      JournalLength(Loaded(origin, path), entries, dones);
      CoveredOneMore(path, Attempts(), Attempt(Render(counters), done));
      entries := entries + [entry];
      dones := dones + [done];
      assert dones[..|old(dones)|] == old(dones);
    }

    method IncrementBale() returns (ok: bool)
      requires Valid()
      modifies this, volume
      ensures Valid() && Booked(old(counters), old(entries), old(dones), Bale, ok)
      ensures ok <==> volume.AllSucceed(old(volume.calls), CallsPerPersist(path))
    {
      hide Journaled, Render, Loaded, Replay;
      counters := counters.(session := SaturatingInc(counters.session));
      counters := counters.(total := SaturatingInc(counters.total));
      ok := Persist(Bale);
    }

    method AdjustSession(delta: I64) returns (ok: bool)
      requires Valid()
      modifies this, volume
      ensures Valid() && Booked(old(counters), old(entries), old(dones), Adjust(delta), ok)
      ensures ok <==> volume.AllSucceed(old(volume.calls), CallsPerPersist(path))
    {
      hide Journaled, Render, Loaded, Replay;
      counters := counters.(session := SaturatingAddSigned(counters.session, delta));
      ok := Persist(Adjust(delta));
    }

    method ResetSession() returns (ok: bool)
      requires Valid()
      modifies this, volume
      ensures Valid() && Booked(old(counters), old(entries), old(dones), ClearSession, ok)
      ensures ok <==> volume.AllSucceed(old(volume.calls), CallsPerPersist(path))
    {
      hide Journaled, Render, Loaded, Replay;
      counters := counters.(session := 0);
      ok := Persist(ClearSession);
    }

    method ResetTotal() returns (ok: bool)
      requires Valid()
      modifies this, volume
      ensures Valid() && Booked(old(counters), old(entries), old(dones), ClearTotal, ok)
      ensures ok <==> volume.AllSucceed(old(volume.calls), CallsPerPersist(path))
    {
      hide Journaled, Render, Loaded, Replay;
      counters := counters.(total := 0);
      ok := Persist(ClearTotal);
    }

    /** The store as a whole: at every moment a reload succeeds unless the read itself fails, and finds the
        counters after the entries covered by the last completed persist; after a completed one, and always
        on a volume that works, the counters in memory. */
    lemma Reload()
      requires Valid() && Extension(path.name) != Some("tmp")
      ensures var k := Covered(path, Attempts());
              && k <= |entries|
              && Loaded(volume.files, path) == Replay(Loaded(origin, path), entries[..k])
              && (k == |entries| ==> Loaded(volume.files, path) == counters)
      ensures Readable(volume.files, path.name)
      ensures volume.Works() ==> Loaded(volume.files, path) == counters
    {
      hide Loaded, Replay, DiskAfter, WellFormed, Journal, Covered;
      JournalLength(Loaded(origin, path), entries, dones);
      ReloadAfterCrash(origin, path, entries, dones);
      TargetStaysReadable(origin, path, Attempts());
      assert entries[..|entries|] == entries;
    }
  }
}
