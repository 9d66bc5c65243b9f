/**
 The part of the file system behind the counter file.

 A persist is a script of small operations; an I/O error or a crash lets only a prefix of the script
 happen. Renaming is atomic, as POSIX.1-2017 (System Interfaces, rename) requires. After a power loss the
 directory may fall back to any earlier version of itself, and a file that was not yet synced may hold
 anything.
*/
module Disk {
  import opened Prelude

  /** One path component that names a file. */
  predicate IsFileName(name: string) {
    name != "" && name != "." && name != ".." && '/' !in name
  }

  type FileName = name: string | IsFileName(name) witness "counters"

  datatype Path = Path(parent: string, name: FileName)

  /** The last index of c in s, or |s| if there is none. */
  function LastIndexOf(s: string, c: char): (i: nat)
    ensures i <= |s|
    ensures i < |s| ==> s[i] == c
    ensures i == |s| ==> c !in s
    ensures i < |s| ==> c !in s[i + 1..]
  {
    if s == "" then 0
    else if s[|s| - 1] == c then |s| - 1
    else
      var front := s[..|s| - 1];
      var i := LastIndexOf(front, c);
      assert s == front + [s[|s| - 1]];
      assert i < |front| ==> s[i + 1..] == front[i + 1..] + [s[|s| - 1]];
      if i == |front| then |s| else i
  }

  /** The text after the last dot, unless the only dot leads the name. */
  function Extension(name: FileName): Option<string> {
    var i := LastIndexOf(name, '.');
    if i == |name| || i == 0 then None else Some(name[i + 1..])
  }

  function Stem(name: FileName): string {
    var i := LastIndexOf(name, '.');
    if i == |name| || i == 0 then name else name[..i]
  }

  /** The name of the temporary file: the extension replaced by, or extended with, "tmp". */
  function TmpName(name: FileName): FileName {
    var stem := Stem(name);
    assert (stem + ".tmp")[|stem| + 1] == 't';
    stem + ".tmp"
  }

  /** The temporary file is the target itself exactly for targets that already end in ".tmp". */
  lemma TmpIsTargetIff(name: FileName)
    ensures TmpName(name) == name <==> Extension(name) == Some("tmp")
  {
    var i := LastIndexOf(name, '.');
    if i == |name| || i == 0 {
      assert |TmpName(name)| == |name| + 4;
    } else {
      assert name == name[..i] + "." + name[i + 1..];
      assert TmpName(name)[i + 1..] == "tmp";
    }
  }

  /** A file that is not valid text has no content worth speaking of. */
  datatype File = File(content: string, synced: bool, isText: bool)

  type Files = map<FileName, File>

  datatype Op =
    | MakeDir
    | Create(name: FileName)
    | Append(name: FileName, c: char)
    | Sync(name: FileName)
    | Rename(from: FileName, to: FileName)

  function Apply(d: Files, op: Op): Files {
    match op
    case MakeDir => d
    case Create(name) => d[name := File("", false, true)]
    case Append(name, c) =>
      if name in d then d[name := d[name].(content := d[name].content + [c], synced := false)] else d
    case Sync(name) => if name in d then d[name := d[name].(synced := true)] else d
    case Rename(from, to) => if from in d then (d - {from})[to := d[from]] else d
  }

  function Run(d: Files, ops: seq<Op>): Files {
    if ops == [] then d else Apply(Run(d, ops[..|ops| - 1]), ops[|ops| - 1])
  }

  function Read(d: Files, name: FileName): Option<string> {
    if name in d then Some(d[name].content) else None
  }

  /** The file is absent or holds text. */
  predicate Readable(d: Files, name: FileName) {
    name in d ==> d[name].isText
  }

  function Appends(name: FileName, text: string): seq<Op> {
    seq(|text|, i requires 0 <= i < |text| => Append(name, text[i]))
  }

  function Opening(path: Path): seq<Op> {
    (if path.parent == "" then [] else [MakeDir]) + [Create(TmpName(path.name))]
  }

  /** Everything one persist of `text` does to the disk. */
  function Script(path: Path, text: string): seq<Op> {
    Opening(path) + Appends(TmpName(path.name), text)
    + [Sync(TmpName(path.name)), Rename(TmpName(path.name), path.name)]
  }

  /** The disk after the first `done` operations of a persist. */
  function Partial(d: Files, path: Path, text: string, done: nat): Files
    requires done <= |Script(path, text)|
  {
    Run(d, Script(path, text)[..done])
  }

  lemma RunAppend(d: Files, ops: seq<Op>, op: Op)
    ensures Run(d, ops + [op]) == Apply(Run(d, ops), op)
  {
    assert (ops + [op])[..|ops|] == ops;
  }

  /** After the opening and n of the appends, the temporary file holds the first n characters. */
  lemma {:induction false} TmpHoldsPrefix(d: Files, path: Path, text: string, n: nat)
    requires n <= |text|
    ensures var done := |Opening(path)| + n;
            && done <= |Script(path, text)|
            && TmpName(path.name) in Partial(d, path, text, done)
            && Partial(d, path, text, done)[TmpName(path.name)] == File(text[..n], false, true)
  {
    hide TmpName, Run;
    var ops, done, tmp := Script(path, text), |Opening(path)| + n, TmpName(path.name);
    assert ops[..done] == ops[..done - 1] + [ops[done - 1]];
    RunAppend(d, ops[..done - 1], ops[done - 1]);
    if n == 0 {
      assert ops[done - 1] == Create(tmp);
    } else {
      TmpHoldsPrefix(d, path, text, n - 1);
      assert ops[done - 1] == Append(tmp, text[n - 1]);
      assert text[..n] == text[..n - 1] + [text[n - 1]];
    }
  }

  /** A persist that runs to its end installs the whole text, synced. */
  lemma CompleteInstalls(d: Files, path: Path, text: string)
    ensures var e := Partial(d, path, text, |Script(path, text)|);
            path.name in e && e[path.name] == File(text, true, true)
  {
    hide TmpName, Run;
    var ops, tmp := Script(path, text), TmpName(path.name);
    var n := |ops|;
    TmpHoldsPrefix(d, path, text, |text|);
    assert text[..|text|] == text;
    assert n - 2 == |Opening(path)| + |text|;
    assert ops[..n - 1] == ops[..n - 2] + [Sync(tmp)];
    assert ops[..n] == ops[..n - 1] + [Rename(tmp, path.name)];
    RunAppend(d, ops[..n - 2], Sync(tmp));
    RunAppend(d, ops[..n - 1], Rename(tmp, path.name));
  }

  /** At every instant of every persist, a reader finds the old text or the new one. */
  ghost predicate CrashAtomic(path: Path) {
    forall d: Files, text: string, done: nat | done <= |Script(path, text)| ::
      Read(Partial(d, path, text, done), path.name)
      == if done == |Script(path, text)| then Some(text) else Read(d, path.name)
  }

  /** Where the operations of a persist stand in its script. */
  lemma ScriptLayout(path: Path, text: string)
    ensures var ops, tmp, open := Script(path, text), TmpName(path.name), |Opening(path)|;
            && |ops| == open + |text| + 2 && open == (if path.parent == "" then 1 else 2)
            && (path.parent != "" ==> ops[0] == MakeDir)
            && ops[open - 1] == Create(tmp)
            && ops[open + |text|] == Sync(tmp)
            && ops[open + |text| + 1] == Rename(tmp, path.name)
  {
    hide TmpName;
  }

  /** One more operation of a persist. */
  lemma PartialStep(d: Files, path: Path, text: string, done: nat)
    requires done < |Script(path, text)|
    ensures Partial(d, path, text, 0) == d
    ensures Partial(d, path, text, done + 1) == Apply(Partial(d, path, text, done), Script(path, text)[done])
  {
    var ops := Script(path, text);
    hide Script, Apply;
    assert ops[..0] == [];
    assert ops[..done + 1] == ops[..done] + [ops[done]];
    RunAppend(d, ops[..done], ops[done]);
  }

  lemma {:induction false} RunConcat(d: Files, a: seq<Op>, b: seq<Op>)
    ensures Run(d, a + b) == Run(Run(d, a), b)
  {
    if b == [] {
      assert a + b == a;
    } else {
      assert (a + b)[..|a + b| - 1] == a + b[..|b| - 1];
      RunConcat(d, a, b[..|b| - 1]);
    }
  }

  /** The first n appends of a persist, taken together. */
  lemma PartialAppends(d: Files, path: Path, text: string, n: nat)
    requires n <= |text|
    ensures var open := |Opening(path)|;
            && open + n <= |Script(path, text)|
            && Partial(d, path, text, open + n)
               == Run(Partial(d, path, text, open), Appends(TmpName(path.name), text)[..n])
  {
    hide TmpName, Run, Apply;
    var ops, open, appends := Script(path, text), |Opening(path)|, Appends(TmpName(path.name), text);
    assert ops[..open + n] == ops[..open] + appends[..n];
    RunConcat(d, ops[..open], appends[..n]);
  }

  /** Before its last operation a persist touches no file but the temporary one. */
  lemma OnlyTmpBeforeRename(path: Path, text: string, i: nat)
    requires i < |Script(path, text)| - 1
    ensures var op := Script(path, text)[i];
            !op.Rename? && (op.MakeDir? || op.name == TmpName(path.name))
  {
    var open := |Opening(path)|;
    if open <= i < open + |text| {
      assert Script(path, text)[i] == Appends(TmpName(path.name), text)[i - open];
    }
  }

  lemma ApplyElsewhere(d: Files, op: Op, name: FileName)
    requires !op.Rename? && (op.MakeDir? || op.name != name)
    ensures name in Apply(d, op) <==> name in d
    ensures name in d ==> Apply(d, op)[name] == d[name]
  {
  }

  /** A persist that stops early leaves the target exactly as it was. */
  lemma {:induction false} StoppedKeepsTarget(d: Files, path: Path, text: string, done: nat)
    requires TmpName(path.name) != path.name
    requires done < |Script(path, text)|
    ensures path.name in Partial(d, path, text, done) <==> path.name in d
    ensures path.name in d ==> Partial(d, path, text, done)[path.name] == d[path.name]
  {
    var ops := Script(path, text);
    if done == 0 {
      assert ops[..0] == [];
    } else {
      hide TmpName, Apply, Script, Run;
      StoppedKeepsTarget(d, path, text, done - 1);
      OnlyTmpBeforeRename(path, text, done - 1);
      assert ops[..done] == ops[..done - 1] + [ops[done - 1]];
      RunAppend(d, ops[..done - 1], ops[done - 1]);
      ApplyElsewhere(Partial(d, path, text, done - 1), ops[done - 1], path.name);
    }
  }

  lemma AtomicWhenApart(path: Path)
    requires TmpName(path.name) != path.name
    ensures CrashAtomic(path)
  {
    hide Script, Run, TmpName;
    forall d: Files, text: string, done: nat | done <= |Script(path, text)|
      ensures Read(Partial(d, path, text, done), path.name)
           == if done == |Script(path, text)| then Some(text) else Read(d, path.name)
    {
      if done == |Script(path, text)| {
        CompleteInstalls(d, path, text);
      } else {
        StoppedKeepsTarget(d, path, text, done);
      }
    }
  }

  /** If the temporary file is the target, a reader can find half a text: here "a" of "ab" over "x". */
  lemma TornWhenAliased(path: Path)
    requires TmpName(path.name) == path.name
    ensures !CrashAtomic(path)
  {
    hide Run, TmpName;
    var d: Files := map[path.name := File("x", true, true)];
    var done := |Opening(path)| + 1;
    TmpHoldsPrefix(d, path, "ab", 1);
    ScriptLayout(path, "ab");
    assert "ab"[..1] == "a";
    hide Script, Opening;
    assert Read(Partial(d, path, "ab", done), path.name) == Some("a");
  }

  /** The write-then-rename protocol is atomic exactly for targets without the extension "tmp". */
  lemma CrashAtomicIff(path: Path)
    ensures CrashAtomic(path) <==> Extension(path.name) != Some("tmp")
  {
    hide CrashAtomic;
    TmpIsTargetIff(path.name);
    if TmpName(path.name) != path.name {
      AtomicWhenApart(path);
    } else {
      TornWhenAliased(path);
    }
  }

  // ---- Sequences of persists ------------------------------------------------------------------

  /** One persist of `text` of which only the first `done` operations happened. */
  datatype Attempt = Attempt(text: string, done: nat)

  ghost predicate Complete(path: Path, a: Attempt) {
    a.done == |Script(path, a.text)|
  }

  ghost predicate WellFormed(path: Path, attempts: seq<Attempt>) {
    forall i :: 0 <= i < |attempts| ==> attempts[i].done <= |Script(path, attempts[i].text)|
  }

  function DiskAfter(d: Files, path: Path, attempts: seq<Attempt>): Files {
    if attempts == [] then d
    else
      var front, last := attempts[..|attempts| - 1], attempts[|attempts| - 1];
      Run(DiskAfter(d, path, front), Script(path, last.text)[..Min(last.done, |Script(path, last.text)|)])
  }

  lemma DiskAfterOneMore(d: Files, path: Path, attempts: seq<Attempt>, a: Attempt)
    requires WellFormed(path, attempts) && a.done <= |Script(path, a.text)|
    ensures WellFormed(path, attempts + [a])
    ensures DiskAfter(d, path, attempts + [a]) == Partial(DiskAfter(d, path, attempts), path, a.text, a.done)
  {
    hide Script, Run;
    assert (attempts + [a])[..|attempts|] == attempts;
  }

  /** The text of the last attempt that reached its rename, or what was there at first. */
  ghost function Committed(d: Files, path: Path, attempts: seq<Attempt>): Option<string> {
    if attempts == [] then Read(d, path.name)
    else
      var front, last := attempts[..|attempts| - 1], attempts[|attempts| - 1];
      if Complete(path, last) then Some(last.text) else Committed(d, path, front)
  }

  /** However the persists before it ended, a reader finds the last committed text. */
  lemma {:induction false} ReadIsCommitted(d: Files, path: Path, attempts: seq<Attempt>)
    requires WellFormed(path, attempts) && Extension(path.name) != Some("tmp")
    ensures Read(DiskAfter(d, path, attempts), path.name) == Committed(d, path, attempts)
  {
    TmpIsTargetIff(path.name);
    if attempts == [] {
    } else {
      var front, last := attempts[..|attempts| - 1], attempts[|attempts| - 1];
      ReadIsCommitted(d, path, front);
      var before := DiskAfter(d, path, front);
      assert DiskAfter(d, path, attempts) == Partial(before, path, last.text, last.done);
      if Complete(path, last) {
        CompleteInstalls(before, path, last.text);
      } else {
        StoppedKeepsTarget(before, path, last.text, last.done);
      }
    }
  }

  /** What a power loss may leave readable at `name`: the directory is some earlier version of itself,
      and the file it names is intact only if it was synced. */
  ghost predicate PowerLossReads(version: Files, name: FileName, found: Option<string>) {
    if name !in version then found == None
    else if version[name].synced then found == Some(version[name].content)
    else found.Some?
  }

  lemma {:induction false} TargetStaysSynced(d: Files, path: Path, attempts: seq<Attempt>)
    requires WellFormed(path, attempts) && Extension(path.name) != Some("tmp")
    requires path.name in d ==> d[path.name].synced
    ensures var e := DiskAfter(d, path, attempts);
            path.name in e ==> e[path.name].synced
  {
    TmpIsTargetIff(path.name);
    if attempts == [] {
    } else {
      var front, last := attempts[..|attempts| - 1], attempts[|attempts| - 1];
      TargetStaysSynced(d, path, front);
      var before := DiskAfter(d, path, front);
      assert DiskAfter(d, path, attempts) == Partial(before, path, last.text, last.done);
      if Complete(path, last) {
        CompleteInstalls(before, path, last.text);
      } else {
        StoppedKeepsTarget(before, path, last.text, last.done);
      }
    }
  }

  /** A target that could be read stays so, however the persists end. */
  lemma {:induction false} TargetStaysReadable(d: Files, path: Path, attempts: seq<Attempt>)
    requires WellFormed(path, attempts) && Extension(path.name) != Some("tmp")
    requires Readable(d, path.name)
    ensures Readable(DiskAfter(d, path, attempts), path.name)
  {
    TmpIsTargetIff(path.name);
    if attempts == [] {
    } else {
      var front, last := attempts[..|attempts| - 1], attempts[|attempts| - 1];
      TargetStaysReadable(d, path, front);
      var before := DiskAfter(d, path, front);
      assert DiskAfter(d, path, attempts) == Partial(before, path, last.text, last.done);
      if Complete(path, last) {
        CompleteInstalls(before, path, last.text);
      } else {
        StoppedKeepsTarget(before, path, last.text, last.done);
      }
    }
  }

  /** A power loss never exposes a torn file: whatever version of the directory survives, taken after
      j operations of the i-th attempt, what is read is what had been committed at that instant. */
  lemma PowerLossReadsACommit(d: Files, path: Path, attempts: seq<Attempt>, i: nat, j: nat, found: Option<string>)
    requires WellFormed(path, attempts) && Extension(path.name) != Some("tmp")
    requires path.name in d ==> d[path.name].synced
    requires i < |attempts| && j <= attempts[i].done
    requires PowerLossReads(Partial(DiskAfter(d, path, attempts[..i]), path, attempts[i].text, j), path.name, found)
    ensures found == Committed(d, path, attempts[..i] + [Attempt(attempts[i].text, j)])
  {
    var cut := attempts[..i] + [Attempt(attempts[i].text, j)];
    assert cut[..|cut| - 1] == attempts[..i];
    TargetStaysSynced(d, path, cut);
    ReadIsCommitted(d, path, cut);
  }
}
