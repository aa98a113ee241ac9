// Checkpoint files: the key printed when one is saved, the parser that reads keys back, and
// the cleanup of files that no committed pointer names.
module Checkpoints {
  import opened Prelude

  // ---------- names ----------

  predicate IsDigit(c: char) {
    '0' <= c <= '9'
  }

  predicate IsHex(c: char) {
    IsDigit(c) || 'a' <= c <= 'f'
  }

  predicate IsHexId(s: string) {
    |s| == 32 && forall i :: 0 <= i < 32 ==> IsHex(s[i])
  }

  function DigitChar(n: nat): (c: char)
    requires n < 10
    ensures IsDigit(c) && (c == '0' <==> n == 0) && c as int == 48 + n
  {
    (48 + n) as char
  }

  function Digits(n: nat): (s: string)
    ensures s != "" && forall i :: 0 <= i < |s| ==> IsDigit(s[i])
    ensures (s[0] == '0' <==> n == 0) && (n < 10 <==> |s| == 1) && (10 <= n < 100 <==> |s| == 2)
  {
    if n < 10 then [DigitChar(n)] else Digits(n / 10) + [DigitChar(n % 10)]
  }

  function Decimal(n: int): string {
    if n < 0 then "-" + Digits(-n) else Digits(n)
  }

  /** At least two digits. */
  function TwoDigits(n: nat): string {
    if n < 10 then "0" + Digits(n) else Digits(n)
  }

  function RunName(run: int): string {
    "run-" + Decimal(run)
  }

  function FileName(round: nat, id: string): string {
    "round-" + TwoDigits(round) + "-" + id + ".json"
  }

  function JoinKey(run: string, file: string): string {
    run + "/" + file
  }

  function PrintKey(run: int, round: nat, id: string): string {
    JoinKey(RunName(run), FileName(round, id))
  }

  // ---------- the patterns ----------

  predicate IsRunName(s: string) {
    |s| >= 5 && s[..4] == "run-" && '1' <= s[4] <= '9' && forall i :: 5 <= i < |s| ==> IsDigit(s[i])
  }

  predicate IsCheckpointName(s: string) {
    |s| == 46 && s[..6] == "round-" && IsDigit(s[6]) && IsDigit(s[7]) && s[8] == '-' && IsHexId(s[9..41]) && s[41..] == ".json"
  }

  predicate IsTemporaryName(s: string) {
    |s| == 48 && s[..12] == ".checkpoint-" && IsHexId(s[12..44]) && s[44..] == ".tmp"
  }

  function FirstSlash(s: string): (n: nat)
    ensures n <= |s| && (n < |s| ==> s[n] == '/') && forall i :: 0 <= i < n ==> s[i] != '/'
  {
    if s == "" || s[0] == '/' then 0 else 1 + FirstSlash(s[1..])
  }

  /** The components of a path; empty ones and single dots do not count. */
  function Parts(s: string): seq<string>
    decreases |s|
  {
    var n := FirstSlash(s);
    (if s[..n] in {"", "."} then [] else [s[..n]]) + if n == |s| then [] else Parts(s[n + 1..])
  }

  function ParseKey(raw: string): Option<(string, string)> {
    if (raw != "" && raw[0] == '/') || '\\' in raw then None
    else
      var parts := Parts(raw);
      if |parts| != 2 || ".." in parts then None
      else if IsRunName(parts[0]) && IsCheckpointName(parts[1]) then Some((parts[0], parts[1]))
      else None
  }

  // ---------- round trip ----------

  predicate IsComponent(s: string) {
    s !in {"", ".", ".."} && '/' !in s && '\\' !in s
  }

  lemma {:induction false} FirstSlashOf(a: string, b: string)
    requires '/' !in a && (b == "" || b[0] == '/')
    ensures FirstSlash(a + b) == |a|
    decreases |a|
  {
    if a == "" {
      assert a + b == b;
    } else {
      assert (a + b)[1..] == a[1..] + b;
      FirstSlashOf(a[1..], b);
    }
  }

  lemma PartsOfTwo(a: string, b: string)
    requires IsComponent(a) && IsComponent(b)
    ensures Parts(JoinKey(a, b)) == [a, b]
  {
    var s := JoinKey(a, b);
    assert s == a + ("/" + b);
    FirstSlashOf(a, "/" + b);
    assert s[..|a|] == a && s[|a| + 1..] == b;
    FirstSlashOf(b, "");
    assert b + "" == b && b[..|b|] == b;
    assert Parts(b) == [b];
  }

  /** A key of two plain components parses exactly if each matches its pattern. */
  lemma ParseOfTwo(a: string, b: string)
    requires IsComponent(a) && IsComponent(b)
    ensures ParseKey(JoinKey(a, b)) == if IsRunName(a) && IsCheckpointName(b) then Some((a, b)) else None
  {
    hide IsRunName, IsCheckpointName, Parts;
    PartsOfTwo(a, b);
    var s := JoinKey(a, b);
    assert s[0] == a[0] && a[0] in a;
    assert forall i :: 0 <= i < |s| ==> s[i] in a || s[i] == '/' || s[i] in b;
  }

  lemma RunNameMatchesIff(run: int)
    ensures IsRunName(RunName(run)) <==> run >= 1
    ensures IsComponent(RunName(run))
  {
    var d := Decimal(run);
    var s := RunName(run);
    assert s[..4] == "run-" && s[4] == d[0];
    assert forall i :: 4 <= i < |s| ==> s[i] == d[i - 4];
    assert forall i :: 0 <= i < |s| ==> s[i] in "run-" || s[i] in d;
    assert forall c :: c in d ==> c == '-' || IsDigit(c);
  }

  lemma FileNameMatchesIff(round: nat, id: string)
    requires IsHexId(id)
    ensures IsCheckpointName(FileName(round, id)) <==> round <= 99
    ensures IsComponent(FileName(round, id))
  {
    var d := TwoDigits(round);
    var s := FileName(round, id);
    assert |d| == 2 <==> round <= 99;
    assert forall c :: c in d ==> IsDigit(c);
    assert forall i :: 0 <= i < |s| ==> s[i] in "round-" || s[i] in d || s[i] in id || s[i] in ".json";
    if |d| == 2 {
      assert s[..6] == "round-" && s[6] == d[0] && s[7] == d[1] && s[8] == '-';
      assert s[9..41] == id && s[41..] == ".json";
    }
  }

  /** A printed key parses back, to the very names it was printed from, exactly for run numbers from 1 and rounds to 99. */
  lemma PrintedKeyParsesIff(run: int, round: nat, id: string)
    requires IsHexId(id)
    ensures ParseKey(PrintKey(run, round, id)) ==
            if run >= 1 && round <= 99 then Some((RunName(run), FileName(round, id))) else None
  {
    RunNameMatchesIff(run);
    FileNameMatchesIff(round, id);
    hide ParseKey, IsRunName, IsCheckpointName, RunName, FileName, JoinKey, IsComponent, IsHexId;
    ParseOfTwo(RunName(run), FileName(round, id));
  }

  function Value(s: string): nat
    requires forall i :: 0 <= i < |s| ==> IsDigit(s[i])
  {
    if s == "" then 0
    else
      var last := s[|s| - 1];
      assert IsDigit(last);
      10 * Value(s[..|s| - 1]) + (last as int - 48)
  }

  lemma {:induction false} DigitsOfValue(s: string)
    requires s != "" && s[0] != '0' && forall i :: 0 <= i < |s| ==> IsDigit(s[i])
    ensures Value(s) >= 1 && Digits(Value(s)) == s
    decreases |s|
  {
    var init, last := s[..|s| - 1], s[|s| - 1];
    assert s == init + [last];
    assert DigitChar(last as int - 48) == last;
    if init == "" {
      assert Value(init) == 0;
    } else {
      DigitsOfValue(init);
      assert Value(s) / 10 == Value(init) && Value(s) % 10 == last as int - 48;
    }
  }

  /** Nothing else parses: an accepted key names the run and file that some save printed. */
  lemma ParsedKeyWasPrinted(raw: string) returns (run: nat, round: nat, id: string)
    requires ParseKey(raw).Some?
    ensures run >= 1 && round <= 99 && IsHexId(id)
    ensures ParseKey(raw) == Some((RunName(run), FileName(round, id)))
  {
    var r, f := ParseKey(raw).value.0, ParseKey(raw).value.1;
    run := NumberOfRun(r);
    round, id := PartsOfFile(f);
  }

  lemma NumberOfRun(r: string) returns (run: nat)
    requires IsRunName(r)
    ensures run >= 1 && RunName(run) == r
  {
    var d := r[4..];
    assert forall i :: 0 <= i < |d| ==> d[i] == r[i + 4];
    DigitsOfValue(d);
    run := Value(d);
    assert r == r[..4] + d;
  }

  lemma PartsOfFile(f: string) returns (round: nat, id: string)
    requires IsCheckpointName(f)
    ensures round <= 99 && IsHexId(id) && FileName(round, id) == f
  {
    id := f[9..41];
    var tens, ones := f[6] as int - 48, f[7] as int - 48;
    round := 10 * tens + ones;
    assert DigitChar(tens) == f[6] && DigitChar(ones) == f[7];
    assert TwoDigits(round) == [f[6], f[7]] by {
      if tens > 0 {
        assert round / 10 == tens && round % 10 == ones;
        assert Digits(tens) == [DigitChar(tens)];
      }
    }
    assert f == f[..6] + [f[6], f[7]] + [f[8]] + f[9..41] + f[41..];
  }

  // ---------- files and pointers ----------

  datatype Kind = Regular | OtherKind

  // Files by directory and name; the directories of the root that can be opened; the committed pointer of each run; and the
  // saves whose file is linked while their transaction is still open.
  datatype State = State(files: map<(string, string), Kind>, dirs: set<string>, pointers: map<nat, string>,
                         open: set<(nat, string)>)

  predicate Resolves(s: State, raw: string) {
    match ParseKey(raw)
    case None => false
    case Some(key) => key.0 in s.dirs && key in s.files && s.files[key].Regular?
  }

  predicate IsOrphan(s: State, f: (string, string)) {
    && f in s.files && s.files[f].Regular? && f.0 in s.dirs
    && IsRunName(f.0) && (IsCheckpointName(f.1) || IsTemporaryName(f.1))
    && JoinKey(f.0, f.1) !in s.pointers.Values
  }

  function Orphans(s: State): set<(string, string)> {
    set f | f in s.files && IsOrphan(s, f)
  }

  function Cleanup(s: State): State {
    s.(files := s.files - Orphans(s))
  }

  /** A pointer that resolves still does so after a cleanup exactly if the key of its file is itself a committed pointer. */
  lemma PointerSurvivesIff(s: State, raw: string)
    requires Resolves(s, raw)
    ensures var key := ParseKey(raw).value;
            Resolves(Cleanup(s), raw) <==> JoinKey(key.0, key.1) in s.pointers.Values
  {
    hide Parts, IsRunName, IsCheckpointName, IsTemporaryName, JoinKey;
  }

  // ---------- saving ----------

  datatype Op =
    | OpLink(run: nat, round: nat, id: string)
    | OpCommit(run: nat, key: string)
    | OpRollback(run: nat, key: string)
    | OpCleanup

  /** The file appears under its final name, whatever its round; linking over an existing file is refused. */
  function Link(s: State, run: nat, round: nat, id: string): State {
    var dir, file := RunName(run), FileName(round, id);
    if run < 1 || !IsHexId(id) || (dir, file) in s.files then s
    else s.(files := s.files[(dir, file) := Regular], dirs := s.dirs + {dir}, open := s.open + {(run, PrintKey(run, round, id))})
  }

  function Commit(s: State, run: nat, key: string): State {
    if (run, key) in s.open then s.(pointers := s.pointers[run := key], open := s.open - {(run, key)}) else s
  }

  function Rollback(s: State, run: nat, key: string): State {
    s.(open := s.open - {(run, key)})
  }

  /** The cleanup at a moment when no save is open. */
  function QuietCleanup(s: State): State {
    if s.open == {} then Cleanup(s) else s
  }

  function Apply(s: State, op: Op): State {
    match op
    case OpLink(run, round, id) => Link(s, run, round, id)
    case OpCommit(run, key) => Commit(s, run, key)
    case OpRollback(run, key) => Rollback(s, run, key)
    case OpCleanup => QuietCleanup(s)
  }

  function Exec(s: State, ops: seq<Op>): State
    decreases |ops|
  {
    if ops == [] then s else Exec(Apply(s, ops[0]), ops[1..])
  }

  const EMPTY := State(map[], {}, map[], {})

  /** The file that a save of the run, round and id links. */
  predicate IsLinked(s: State, run: nat, round: nat, id: string) {
    && run >= 1 && IsHexId(id)
    && RunName(run) in s.dirs && (RunName(run), FileName(round, id)) in s.files
    && s.files[(RunName(run), FileName(round, id))].Regular?
  }

  /** The key was printed by a save of the run, and the file of that save is there. */
  ghost predicate IsSaved(s: State, run: nat, key: string) {
    exists round: nat, id: string :: IsLinked(s, run, round, id) && key == PrintKey(run, round, id)
  }

  ghost predicate IsSavedFile(s: State, f: (string, string)) {
    exists run: nat, round: nat, id: string :: IsLinked(s, run, round, id) && f == (RunName(run), FileName(round, id))
  }

  /** Every committed pointer, and every key that may still be committed, has its file, and there are no other files. */
  ghost predicate Inv(s: State) {
    && (forall run :: run in s.pointers ==> IsSaved(s, run, s.pointers[run]))
    && (forall p :: p in s.open ==> IsSaved(s, p.0, p.1))
    && (forall f :: f in s.files ==> IsSavedFile(s, f))
  }

  lemma PrintedResolvesIff(s: State, run: nat, round: nat, id: string)
    requires IsLinked(s, run, round, id)
    ensures Resolves(s, PrintKey(run, round, id)) <==> round <= 99
  {
    hide ParseKey;
    PrintedKeyParsesIff(run, round, id);
  }

  // Whatever is linked in s and kept in t keeps keys and files saved.
  lemma SavedStays(s: State, t: State, run: nat, key: string)
    requires IsSaved(s, run, key)
    requires forall round: nat, id: string :: IsLinked(s, run, round, id) && key == PrintKey(run, round, id) ==>
                                                IsLinked(t, run, round, id)
    ensures IsSaved(t, run, key)
  {
    var round: nat, id: string :| IsLinked(s, run, round, id) && key == PrintKey(run, round, id);
    assert IsLinked(t, run, round, id);
  }

  lemma LinkKeepsInv(s: State, run: nat, round: nat, id: string)
    requires Inv(s)
    ensures Inv(Link(s, run, round, id))
  {
    hide RunName, FileName, IsHexId, PrintKey, IsSaved, IsSavedFile;
    var t := Link(s, run, round, id);
    forall r: nat, n: nat, i: string | IsLinked(s, r, n, i) ensures IsLinked(t, r, n, i) {
    }
    forall r | r in t.pointers ensures IsSaved(t, r, t.pointers[r]) {
      SavedStays(s, t, r, s.pointers[r]);
    }
    forall p | p in t.open ensures IsSaved(t, p.0, p.1) {
      if p in s.open {
        SavedStays(s, t, p.0, p.1);
      } else {
        LinkedIsSaved(t, run, round, id);
      }
    }
    forall f | f in t.files ensures IsSavedFile(t, f) {
      if f in s.files {
        SavedFileStays(s, t, f);
      } else {
        LinkedIsSaved(t, run, round, id);
      }
    }
  }

  lemma LinkedIsSaved(s: State, run: nat, round: nat, id: string)
    requires IsLinked(s, run, round, id)
    ensures IsSaved(s, run, PrintKey(run, round, id)) && IsSavedFile(s, (RunName(run), FileName(round, id)))
  {
  }

  lemma SavedFileStays(s: State, t: State, f: (string, string))
    requires IsSavedFile(s, f)
    requires forall run: nat, round: nat, id: string ::
               IsLinked(s, run, round, id) && f == (RunName(run), FileName(round, id)) ==> IsLinked(t, run, round, id)
    ensures IsSavedFile(t, f)
  {
    var run: nat, round: nat, id: string :| IsLinked(s, run, round, id) && f == (RunName(run), FileName(round, id));
    assert IsLinked(t, run, round, id);
  }

  /** A file that a committed pointer names is no orphan. */
  lemma NamedFileStays(s: State, run: nat, round: nat, id: string)
    requires IsLinked(s, run, round, id) && PrintKey(run, round, id) in s.pointers.Values
    ensures IsLinked(Cleanup(s), run, round, id)
  {
  }

  lemma CleanupKeepsInv(s: State)
    requires Inv(s)
    ensures Inv(QuietCleanup(s))
  {
    hide IsSaved, IsSavedFile, IsLinked, PrintKey, RunName, FileName, Orphans;
    if s.open == {} {
      var t := Cleanup(s);
      forall run | run in t.pointers ensures IsSaved(t, run, t.pointers[run]) {
        assert s.pointers[run] in s.pointers.Values;
        forall round: nat, id: string | IsLinked(s, run, round, id) && s.pointers[run] == PrintKey(run, round, id)
          ensures IsLinked(t, run, round, id)
        {
          NamedFileStays(s, run, round, id);
        }
        SavedStays(s, t, run, s.pointers[run]);
      }
      forall f | f in t.files ensures IsSavedFile(t, f) {
        KeptFileStays(s, f);
      }
    }
  }

  lemma KeptFileStays(s: State, f: (string, string))
    requires f in Cleanup(s).files && IsSavedFile(s, f)
    ensures IsSavedFile(Cleanup(s), f)
  {
    hide IsOrphan, IsHexId, RunName, FileName;
    SavedFileStays(s, Cleanup(s), f);
  }

  lemma CommitKeepsInv(s: State, run: nat, key: string)
    requires Inv(s)
    ensures Inv(Commit(s, run, key)) && Inv(Rollback(s, run, key))
  {
    hide IsLinked, RunName, FileName, PrintKey;
    SameFiles(s, Commit(s, run, key));
    SameFiles(s, Rollback(s, run, key));
    hide IsSaved, IsSavedFile;
  }

  lemma SameFiles(s: State, t: State)
    requires s.files == t.files && s.dirs == t.dirs
    ensures forall run: nat, key: string :: IsSaved(s, run, key) <==> IsSaved(t, run, key)
    ensures forall f :: IsSavedFile(s, f) <==> IsSavedFile(t, f)
  {
    assert forall run: nat, round: nat, id: string :: IsLinked(s, run, round, id) <==> IsLinked(t, run, round, id);
  }

  lemma StepKeepsInv(s: State, op: Op)
    requires Inv(s)
    ensures Inv(Apply(s, op))
  {
    match op
    case OpLink(run, round, id) => LinkKeepsInv(s, run, round, id);
    case OpCleanup => CleanupKeepsInv(s);
    case OpCommit(run, key) => CommitKeepsInv(s, run, key);
    case OpRollback(run, key) => CommitKeepsInv(s, run, key);
  }

  lemma {:induction false} InvAlways(s: State, ops: seq<Op>)
    requires Inv(s)
    ensures Inv(Exec(s, ops))
    decreases |ops|
  {
    if ops != [] {
      StepKeepsInv(s, ops[0]);
      InvAlways(Apply(s, ops[0]), ops[1..]);
    }
  }

  /**
   * However saves and cleanups follow each other, with cleanups only while no save is open, a committed pointer is the key
   * that a save of its run printed, and resolves exactly if the round of that save is at most 99.
   */
  lemma PointersResolveIff(s: State, ops: seq<Op>, run: nat)
    requires Inv(s) && run in Exec(s, ops).pointers
    ensures var t := Exec(s, ops);
            && IsSaved(t, run, t.pointers[run])
            && forall round: nat, id: string :: IsHexId(id) && t.pointers[run] == PrintKey(run, round, id) ==>
                 (Resolves(t, t.pointers[run]) <==> round <= 99)
  {
    InvAlways(s, ops);
    hide Exec, Inv, PrintKey, IsHexId, Resolves;
    var t := Exec(s, ops);
    assert IsSaved(t, run, t.pointers[run]) by { InvSaves(t, run); }
    var n: nat, i: string :| IsLinked(t, run, n, i) && t.pointers[run] == PrintKey(run, n, i);
    PrintedResolvesIff(t, run, n, i);
    forall round: nat, id: string | IsHexId(id) && t.pointers[run] == PrintKey(run, round, id)
      ensures Resolves(t, t.pointers[run]) <==> round <= 99
    {
      SameRoundRange(run, n, i, round, id);
    }
  }

  lemma InvSaves(s: State, run: nat)
    requires Inv(s) && run in s.pointers
    ensures IsSaved(s, run, s.pointers[run])
  {
  }

  /** A printed key shows whether its round had more than two digits. */
  lemma SameRoundRange(run: nat, n: nat, i: string, round: nat, id: string)
    requires run >= 1 && IsHexId(i) && IsHexId(id) && PrintKey(run, n, i) == PrintKey(run, round, id)
    ensures n <= 99 <==> round <= 99
  {
    hide *;
    PrintedKeyParsesIff(run, n, i);
    PrintedKeyParsesIff(run, round, id);
  }

  /** The rounds saved keep to two digits. */
  predicate ShortRounds(ops: seq<Op>) {
    forall k :: 0 <= k < |ops| && ops[k].OpLink? ==> ops[k].round <= 99
  }

  /** Every committed pointer, and every key that may still be committed, resolves. */
  ghost predicate AllResolve(s: State) {
    (forall run :: run in s.pointers ==> Resolves(s, s.pointers[run])) && (forall p :: p in s.open ==> Resolves(s, p.1))
  }

  lemma StepKeepsResolving(s: State, op: Op)
    requires Inv(s) && AllResolve(s) && (op.OpLink? ==> op.round <= 99)
    ensures AllResolve(Apply(s, op))
  {
    hide ParseKey, PrintKey, JoinKey, RunName, FileName, IsHexId, IsSaved, IsSavedFile, Orphans;
    var t := Apply(s, op);
    match op {
      case OpLink(run, round, id) =>
        assert forall raw :: Resolves(s, raw) ==> Resolves(t, raw);
        if IsLinked(t, run, round, id) {
          PrintedResolvesIff(t, run, round, id);
        }
      case OpCleanup =>
        if s.open == {} {
          forall run | run in s.pointers ensures Resolves(t, s.pointers[run]) {
            assert s.pointers[run] in s.pointers.Values;
            assert IsSaved(s, run, s.pointers[run]);
            NamedPointerStays(s, run);
          }
        }
      case _ =>
    }
  }

  lemma NamedPointerStays(s: State, run: nat)
    requires run in s.pointers && IsSaved(s, run, s.pointers[run]) && Resolves(s, s.pointers[run])
    ensures Resolves(Cleanup(s), s.pointers[run])
  {
    var raw := s.pointers[run];
    assert raw in s.pointers.Values;
    var round: nat, id: string :| IsLinked(s, run, round, id) && raw == PrintKey(run, round, id);
    hide ParseKey, RunName, FileName, IsHexId, Cleanup;
    PrintedResolvesIff(s, run, round, id);
    NamedFileStays(s, run, round, id);
    PrintedResolvesIff(Cleanup(s), run, round, id);
  }

  /** As long as no round needs three digits, every committed pointer resolves in every reachable state. */
  lemma {:induction false} PointersAlwaysResolve(s: State, ops: seq<Op>)
    requires Inv(s) && AllResolve(s) && ShortRounds(ops)
    ensures AllResolve(Exec(s, ops))
    decreases |ops|
  {
    if ops != [] {
      StepKeepsInv(s, ops[0]);
      StepKeepsResolving(s, ops[0]);
      PointersAlwaysResolve(Apply(s, ops[0]), ops[1..]);
    }
  }

  lemma EmptyIsOk()
    ensures Inv(EMPTY) && AllResolve(EMPTY)
  {
  }

  /** The hundredth round of a run leaves it with a committed pointer that cannot be read back. */
  lemma RoundHundredDoesNotResolve(id: string)
    requires IsHexId(id)
    ensures var key := PrintKey(1, 100, id);
            var s := Exec(EMPTY, [OpLink(1, 100, id), OpCommit(1, key)]);
            s.pointers == map[1 := key] && !Resolves(s, key)
  {
    var key := PrintKey(1, 100, id);
    PrintedKeyParsesIff(1, 100, id);
    hide ParseKey, PrintKey, RunName, FileName, IsHexId;
    var linked := Link(EMPTY, 1, 100, id);
    assert linked.open == {(1, key)};
    assert [OpLink(1, 100, id), OpCommit(1, key)][1..] == [OpCommit(1, key)];
    assert Exec(linked, [OpCommit(1, key)]) == Commit(linked, 1, key);
  }

  /** A file of a round with three digits matches no pattern, and so no operation ever removes it. */
  lemma {:induction false} LongRoundsStay(s: State, ops: seq<Op>, run: nat, round: nat, id: string)
    requires IsLinked(s, run, round, id) && round > 99
    ensures IsLinked(Exec(s, ops), run, round, id)
    decreases |ops|
  {
    if ops != [] {
      LongRoundStaysOnce(s, ops[0], run, round, id);
      LongRoundsStay(Apply(s, ops[0]), ops[1..], run, round, id);
    }
  }

  lemma LongRoundStaysOnce(s: State, op: Op, run: nat, round: nat, id: string)
    requires IsLinked(s, run, round, id) && round > 99
    ensures IsLinked(Apply(s, op), run, round, id)
  {
    FileNameMatchesIff(round, id);
    NoTemporary(round, id);
    hide RunName, FileName, IsHexId, PrintKey, IsRunName, IsCheckpointName, IsTemporaryName;
  }

  /**
   * After any run of saves that ends with a cleanup while no save is open, the files left are exactly those of the
   * committed pointers and those of rounds above 99: every superseded or withdrawn save of a shorter round is gone.
   */
  lemma CleanupLeavesExactly(s: State, ops: seq<Op>, f: (string, string))
    requires Inv(s) && Exec(s, ops).open == {}
    ensures var before, after := Exec(s, ops), QuietCleanup(Exec(s, ops));
            f in after.files <==>
            f in before.files
            && (JoinKey(f.0, f.1) in before.pointers.Values
                || exists round: nat, id: string :: IsHexId(id) && round > 99 && f.1 == FileName(round, id))
  {
    InvAlways(s, ops);
    hide Exec;
    var before := Exec(s, ops);
    if f in before.files {
      assert IsSavedFile(before, f);
      SavedIsOrphanIff(before, f);
    }
  }

  lemma SavedIsOrphanIff(s: State, f: (string, string))
    requires f in s.files && IsSavedFile(s, f)
    ensures IsOrphan(s, f) <==>
            JoinKey(f.0, f.1) !in s.pointers.Values
            && !(exists round: nat, id: string :: IsHexId(id) && round > 99 && f.1 == FileName(round, id))
  {
    var run: nat, n: nat, i: string :| IsLinked(s, run, n, i) && f == (RunName(run), FileName(n, i));
    hide FileName, RunName, IsHexId, IsRunName, IsCheckpointName, JoinKey;
    RunNameMatchesIff(run);
    FileNameMatchesIff(n, i);
    NoTemporary(n, i);
    forall round: nat, id: string | IsHexId(id) && f.1 == FileName(round, id) ensures round <= 99 <==> n <= 99 {
      FileNameMatchesIff(round, id);
    }
  }

  lemma NoTemporary(round: nat, id: string)
    ensures !IsTemporaryName(FileName(round, id))
  {
    assert FileName(round, id)[0] == 'r';
  }

  /** A cleanup while a save is open takes the file that the save is about to point to. */
  lemma OpenSaveLosesItsFile(s: State, run: nat, round: nat, id: string)
    requires run >= 1 && round <= 99 && IsHexId(id)
    requires (RunName(run), FileName(round, id)) !in s.files && PrintKey(run, round, id) !in s.pointers.Values
    ensures var key := PrintKey(run, round, id);
            var linked := Link(s, run, round, id);
            && Resolves(linked, key)
            && Commit(Cleanup(linked), run, key).pointers == s.pointers[run := key]
            && !Resolves(Commit(Cleanup(linked), run, key), key)
  {
    PrintedKeyParsesIff(run, round, id);
    RunNameMatchesIff(run);
    FileNameMatchesIff(round, id);
    hide ParseKey, RunName, FileName, IsHexId, IsRunName, IsCheckpointName, IsTemporaryName;
  }

  // ---------- the cleanup as it runs ----------

  class CheckpointDirectory {
    var files: map<(string, string), Kind>
    var dirs: set<string>

    constructor ()
      ensures files == map[] && dirs == {}
    {
      files, dirs := map[], {};
    }

    /** The loop over the files of one run directory. */
    method CleanRun(run: string, referenced: set<string>, ghost s: State) returns (removed: nat)
      requires IsRunName(run) && run in s.dirs && referenced == s.pointers.Values
      requires Untouched(s, run, AllOf(s, run), files) && files.Keys <= s.files.Keys
      modifies this`files
      ensures files == old(files) - OrphansUnder(s, {run}) && removed == |OrphansUnder(s, {run})|
    {
      removed := 0;
      var before := files;
      var todo := set f | f in files && f.0 == run;
      assert todo == AllOf(s, run);
      AllLeft(s, run, todo);
      hide *;
      while todo != {}
        invariant Untouched(s, run, todo, files)
        invariant files == before - Taken(s, run, todo) && removed == |Taken(s, run, todo)|
        decreases todo
      {
        var f :| f in todo;
        TakeOne(s, run, todo, f, before, files);
        todo := todo - {f};
        if (IsCheckpointName(f.1) || IsTemporaryName(f.1)) && JoinKey(run, f.1) !in referenced && files[f].Regular? {
          files := files - {f};
          removed := removed + 1;
        }
      }
      NoneLeft(s, run);
    }

    /** Removes exactly the orphans of the files as they are and the pointers as committed, and counts them. */
    method CleanupOrphanedCheckpoints(pointers: map<nat, string>, ghost s: State) returns (removed: nat)
      requires s.files == files && s.dirs == dirs && s.pointers == pointers
      modifies this`files
      ensures files == Cleanup(s).files
      ensures removed == |Orphans(s)|
    {
      var referenced := pointers.Values;
      removed := 0;
      var todo := dirs;
      assert OrphansUnder(s, dirs - todo) == {};
      assert OrphansUnder(s, dirs - {}) == Orphans(s);
      hide *;
      while todo != {}
        invariant todo <= s.dirs
        invariant files == s.files - OrphansUnder(s, s.dirs - todo) && removed == |OrphansUnder(s, s.dirs - todo)|
        decreases todo
      {
        var run :| run in todo;
        OrphansSplit(s, s.dirs - todo, run, files);
        assert s.dirs - (todo - {run}) == s.dirs - todo + {run};
        todo := todo - {run};
        if IsRunName(run) {
          var n := CleanRun(run, referenced, s);
          removed := removed + n;
        }
      }
      assert todo == {};
    }
  }

  /** The orphans of a run that are no longer to be looked at. */
  function Taken(s: State, run: string, todo: set<(string, string)>): set<(string, string)> {
    OrphansUnder(s, {run}) - todo
  }

  function AllOf(s: State, run: string): set<(string, string)> {
    set f | f in s.files && f.0 == run
  }

  /** The files still to be looked at are as they were. */
  predicate Untouched(s: State, run: string, todo: set<(string, string)>, files: map<(string, string), Kind>) {
    forall f :: f in todo ==> f in files && f in s.files && files[f] == s.files[f] && f.0 == run
  }

  lemma AllLeft(s: State, run: string, todo: set<(string, string)>)
    requires forall f :: f in s.files && f.0 == run ==> f in todo
    ensures Taken(s, run, todo) == {}
  {
  }

  lemma TakeOne(s: State, run: string, todo: set<(string, string)>, f: (string, string),
                before: map<(string, string), Kind>, files: map<(string, string), Kind>)
    requires f in todo && Untouched(s, run, todo, files) && run in s.dirs && IsRunName(run)
    requires files == before - Taken(s, run, todo)
    ensures f in s.files && f in files && files[f] == s.files[f]
    ensures Untouched(s, run, todo - {f}, files) && Untouched(s, run, todo - {f}, files - {f})
    ensures var isOrphan := (IsCheckpointName(f.1) || IsTemporaryName(f.1)) && JoinKey(run, f.1) !in s.pointers.Values
                            && s.files[f].Regular?;
            && (if isOrphan then files - {f} else files) == before - Taken(s, run, todo - {f})
            && |Taken(s, run, todo - {f})| == |Taken(s, run, todo)| + (if isOrphan then 1 else 0)
  {
    assert Untouched(s, run, todo - {f}, files) && Untouched(s, run, todo - {f}, files - {f});
    TakenGrows(s, run, todo, f);
    assert f in s.files && f.0 == run && files[f] == s.files[f];
    hide *;
    MinusMore(before, Taken(s, run, todo), f);
  }

  lemma TakenGrows(s: State, run: string, todo: set<(string, string)>, f: (string, string))
    requires f in todo && f in s.files && f.0 == run && run in s.dirs && IsRunName(run)
    ensures var isOrphan := (IsCheckpointName(f.1) || IsTemporaryName(f.1)) && JoinKey(run, f.1) !in s.pointers.Values
                            && s.files[f].Regular?;
            && Taken(s, run, todo - {f}) == (if isOrphan then Taken(s, run, todo) + {f} else Taken(s, run, todo))
            && |Taken(s, run, todo - {f})| == |Taken(s, run, todo)| + (if isOrphan then 1 else 0)
  {
    hide IsRunName, IsCheckpointName, IsTemporaryName, JoinKey;
    assert f in OrphansUnder(s, {run}) <==> IsOrphan(s, f);
    assert f !in Taken(s, run, todo);
  }

  lemma MinusMore(before: map<(string, string), Kind>, gone: set<(string, string)>, f: (string, string))
    ensures (before - gone) - {f} == before - (gone + {f})
  {
  }

  lemma NoneLeft(s: State, run: string)
    ensures Taken(s, run, {}) == OrphansUnder(s, {run})
  {
  }

  /** The orphans in some directories. */
  function OrphansUnder(s: State, dirs: set<string>): set<(string, string)> {
    set f | f in Orphans(s) && f.0 in dirs
  }

  lemma OrphansSplit(s: State, dirs: set<string>, run: string, files: map<(string, string), Kind>)
    requires run !in dirs && files == s.files - OrphansUnder(s, dirs)
    ensures Untouched(s, run, AllOf(s, run), files)
    ensures var part := OrphansUnder(s, {run});
            && OrphansUnder(s, dirs + {run}) == OrphansUnder(s, dirs) + part
            && |OrphansUnder(s, dirs + {run})| == |OrphansUnder(s, dirs)| + |part|
            && (!IsRunName(run) ==> part == {})
  {
    OthersUntouched(s, dirs, run, files);
    hide Untouched, IsRunName, IsCheckpointName, IsTemporaryName, JoinKey;
    assert OrphansUnder(s, dirs + {run}) == OrphansUnder(s, dirs) + OrphansUnder(s, {run});
    assert OrphansUnder(s, dirs) !! OrphansUnder(s, {run});
  }

  lemma OthersUntouched(s: State, dirs: set<string>, run: string, files: map<(string, string), Kind>)
    requires run !in dirs && files == s.files - OrphansUnder(s, dirs)
    ensures Untouched(s, run, AllOf(s, run), files)
  {
    hide Orphans, IsOrphan;
  }
}
