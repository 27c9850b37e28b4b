/** A batch of workspace files whose journal can be written but not replaced. */
module LongBatches {
  import opened Containers
  import opened Effects
  import opened JsonText
  import opened WorkspaceTransactions

  const FILES: nat := 3765
  const WORKSPACE: Root := Root("/workspace", Inode(1, 2))

  function Hex(k: nat): char
    requires k < 16
  {
    "0123456789abcdef"[k]
  }

  function Numbered(i: nat): string
    requires i < 4096
  {
    [Hex(i / 256), Hex(i / 16 % 16), Hex(i % 16)]
  }

  function Repeated(c: char, n: nat): string {
    seq(n, _ => c)
  }

  /** Two directories with long names. */
  const DIRECTORY: Path := [Part(Repeated('d', 204)), Part(Repeated('d', 205))]

  function FileAt(i: nat): Path
    requires i < FILES
  {
    DIRECTORY + [Part(Numbered(i))]
  }

  /** 32 random hexadecimal digits. */
  function BoxName(i: nat): string
    requires i < FILES
  {
    Repeated('0', 29) + Numbered(i)
  }

  /** New, empty files. */
  const INPUTS: seq<Input> := seq(FILES, i requires 0 <= i < FILES => Input(FileAt(i), [], None))

  const SCRATCH: seq<Scratch> :=
    seq(FILES, i requires 0 <= i < FILES =>
      Scratch(BoxName(i), Inode(1, 1_000_000 + 2 * i), Inode(1, 1_000_001 + 2 * i), Inode(1, 0)))

  const CHANGE_LENGTH: nat := 1112

  lemma NumberedApart(i: nat, j: nat)
    requires i < 4096 && j < 4096 && Numbered(i) == Numbered(j)
    ensures i == j
  {
    assert Numbered(i)[0] == Numbered(j)[0] && Numbered(i)[1] == Numbered(j)[1] && Numbered(i)[2] == Numbered(j)[2];
    SameDigit(i / 256, j / 256);
    SameDigit(i / 16 % 16, j / 16 % 16);
    SameDigit(i % 16, j % 16);
    FromDigits(i);
    FromDigits(j);
  }

  lemma FromDigits(i: nat)
    requires i < 4096
    ensures i == 256 * (i / 256) + 16 * (i / 16 % 16) + i % 16
  {
    assert i / 16 / 16 == i / 256;
  }

  lemma SameDigit(k: nat, l: nat)
    requires k < 16 && l < 16 && Hex(k) == Hex(l)
    ensures k == l
  {
  }

  /** Lower-case letters and digits. */
  predicate Lower(s: string) {
    forall i | 0 <= i < |s| :: 'a' <= s[i] <= 'z' || '0' <= s[i] <= '9'
  }

  lemma LowerIsPlain(s: string)
    requires Lower(s)
    ensures Plain(s)
  {
    forall i | 0 <= i < |s| ensures Escaped(s[i]) == 1 {
      assert s[i] !in "\"\\\n\r\t";
    }
  }

  lemma NumberedIsLower(i: nat)
    requires i < 4096
    ensures Lower(Numbered(i))
  {
  }

  /** A path below two directories is joined with two slashes. */
  lemma PosixOfThree(a: string, b: string, c: string)
    ensures Posix([Part(a), Part(b), Part(c)]) == a + "/" + b + "/" + c
  {
    var p := [Part(a), Part(b), Part(c)];
    assert p[..2] == [Part(a), Part(b)] && p[..2][..1] == [Part(a)];
    assert Posix(p[..2][..1]) == a;
    assert Posix(p[..2]) == a + "/" + b;
  }

  lemma PlainPath(a: string, b: string, c: string)
    requires Plain(a) && Plain(b) && Plain(c)
    ensures Quoted(Posix([Part(a), Part(b), Part(c)])) == |a| + |b| + |c| + 4
  {
    PosixOfThree(a, b, c);
    assert Plain("/");
    PlainJoins(a, "/");
    PlainJoins(a + "/", b);
    PlainJoins(a + "/" + b, "/");
    PlainJoins(a + "/" + b + "/", c);
    PlainLength(a + "/" + b + "/" + c);
  }

  // ---------------------------------------------------------------- the length of the record

  lemma BoxIsPlain(i: nat)
    requires i < FILES
    ensures Plain(STAGE_PREFIX + BoxName(i)) && |STAGE_PREFIX + BoxName(i)| == 51
  {
    NumberedIsLower(i);
    LowerIsPlain(Numbered(i));
    LowerIsPlain(Repeated('0', 29));
    PlainJoins(Repeated('0', 29), Numbered(i));
    assert Plain(STAGE_PREFIX);
    PlainJoins(STAGE_PREFIX, BoxName(i));
  }

  lemma OneChange(i: nat)
    requires i < FILES
    ensures ChangeLength(Planned(map[], INPUTS[i], SCRATCH[i])) == CHANGE_LENGTH
  {
    var c := Planned(map[], INPUTS[i], SCRATCH[i]);
    LowerIsPlain(Repeated('d', 204));
    LowerIsPlain(Repeated('d', 205));
    NumberedIsLower(i);
    LowerIsPlain(Numbered(i));
    assert c.path == [Part(Repeated('d', 204)), Part(Repeated('d', 205)), Part(Numbered(i))];
    PlainPath(Repeated('d', 204), Repeated('d', 205), Numbered(i));
    BoxIsPlain(i);
    assert c.box == [Part(Repeated('d', 204)), Part(Repeated('d', 205)), Part(STAGE_PREFIX + BoxName(i))];
    PlainPath(Repeated('d', 204), Repeated('d', 205), STAGE_PREFIX + BoxName(i));
    SevenDigits(1_000_000 + 2 * i);
    SevenDigits(1_000_001 + 2 * i);
    assert VersionLength(c.after) == 128 by { assert Digits(438 / 10) == 2 && Digits(438) == 3; }
  }

  lemma {:induction false} AllChanges(cs: seq<Change>)
    requires cs != [] && forall i | 0 <= i < |cs| :: ChangeLength(cs[i]) == CHANGE_LENGTH
    ensures ChangesLength(cs) == |cs| * (CHANGE_LENGTH + 2) - 2
  {
    if |cs| > 1 { AllChanges(cs[..|cs| - 1]); }
  }

  lemma FullRecord(cs: seq<Change>, status: Status)
    requires ChangesLength(cs) == FILES * (CHANGE_LENGTH + 2) - 2
    ensures Length(Record(status, cs, WORKSPACE)) == JOURNAL_LIMIT + |Word(status)| - |Word(Pending)|
  {
    PlainLength("/workspace");
    assert |"/workspace"| == 10;
  }

  /** The pending record is exactly as long as it may be. */
  lemma JustFits(status: Status)
    ensures Length(Record(status, AllPlanned(map[], INPUTS, SCRATCH), WORKSPACE))
            == JOURNAL_LIMIT + |Word(status)| - |Word(Pending)|
  {
    var cs := AllPlanned(map[], INPUTS, SCRATCH);
    forall i | 0 <= i < |cs|
      ensures ChangeLength(cs[i]) == CHANGE_LENGTH
    {
      OneChange(i);
    }
    AllChanges(cs);
    FullRecord(cs, status);
  }

  // ---------------------------------------------------------------- the request

  /** Case folding leaves lower-case letters and digits alone. */
  ghost predicate Folds(fold: string -> string) {
    forall s: string | Lower(s) :: fold(s) == s
  }

  lemma InputsAcceptable(fold: string -> string)
    requires Folds(fold)
    ensures Acceptable(fold, INPUTS, map[])
  {
    var paths := Asked(INPUTS);
    forall i | 0 <= i < FILES
      ensures paths[i] == FileAt(i) && Folded(fold, paths[i]) == [DIRECTORY[0].text, DIRECTORY[1].text, Numbered(i)]
      ensures Public(fold, paths[i])
    {
      NumberedIsLower(i);
      assert Lower(DIRECTORY[0].text) && Lower(DIRECTORY[1].text);
      assert |Folded(fold, LOCK)| == 2 == |Folded(fold, JOURNAL)|;
      assert STAGE_PREFIX[0] == '.';
    }
    forall i, j | 0 <= i < FILES && 0 <= j < FILES && i != j
      ensures Numbered(i) != Numbered(j) && Folded(fold, paths[i]) != Folded(fold, paths[j]) && !(paths[i] <= paths[j])
    {
      if Numbered(i) == Numbered(j) { NumberedApart(i, j); }
      assert Folded(fold, paths[i])[2] != Folded(fold, paths[j])[2];
      assert paths[i][2] != paths[j][2];
    }
  }

  lemma BoxesAreNew()
    ensures NewBoxes(Disk(map[], map[], None), HandedOut(INPUTS, SCRATCH))
  {
    var boxes := HandedOut(INPUTS, SCRATCH);
    forall i, j | 0 <= i < j < FILES
      ensures boxes[i] != boxes[j]
    {
      if boxes[i] == boxes[j] {
        assert boxes[i][2] == Part(STAGE_PREFIX + BoxName(i)) && boxes[j][2] == Part(STAGE_PREFIX + BoxName(j));
        assert Numbered(i) == (STAGE_PREFIX + BoxName(i))[48..] && Numbered(j) == (STAGE_PREFIX + BoxName(j))[48..];
        NumberedApart(i, j);
      }
    }
  }

  /** 3765 new files in a directory with a long name: their pending record just fits, so they are begun, and the batch can
    * never be recovered. */
  method TooLongToForget(fold: string -> string, scripts: seq<seq<Fate>>) returns (machine: Machine<Disk>, o: Outcome)
    requires Folds(fold)
    ensures machine.disk.journal.Some? && o == Raised(Conflict)
  {
    machine := new Machine(Disk(map[], map[], None), []);
    InputsAcceptable(fold);
    BoxesAreNew();
    JustFits(Pending);
    JustFits(RolledBack);
    var t;
    ghost var cs;
    o, t, cs := Begin(machine, fold, INPUTS, SCRATCH, WORKSPACE);
    RecordFits(cs, INPUTS, SCRATCH, map[], RolledBack, WORKSPACE);
    o := RecoverRepeatedly(machine, scripts, fold, WORKSPACE, map[], cs);
  }
}
