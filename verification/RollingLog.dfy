/**
  Size-capped rolling log files (src-tauri/src/logging.rs).

  A log directory is the sequence of its files, oldest first; file times grow strictly in the
  order of creation, so that is also the order the code sorts by.
 */
module RollingLog {

  const MAX_FILE_BYTES: nat := 1024 * 1024
  const MAX_DIR_BYTES: nat := 4 * 1024 * 1024
  const MAX_SESSION_FILES: nat := 3

  type Bytes = seq<nat>

  function Total(files: seq<Bytes>): nat {
    if files == [] then 0 else Total(files[..|files| - 1]) + |files[|files| - 1]|
  }

  function Concat(files: seq<Bytes>): Bytes {
    if files == [] then [] else Concat(files[..|files| - 1]) + files[|files| - 1]
  }

  // --------------------------------------------------------------------------- pruning

  /** How many of the newest files fit under both caps, when `index` newer ones hold `total` bytes. */
  function Fitting(files: seq<Bytes>, index: nat, total: nat): (k: nat)
    ensures k <= |files|
  {
    if files == [] then 0
    else
      var newest := files[|files| - 1];
      if index >= MAX_SESSION_FILES || total + |newest| > MAX_DIR_BYTES then 0
      else 1 + Fitting(files[..|files| - 1], index + 1, total + |newest|)
  }

  function Newest(files: seq<Bytes>, k: nat): seq<Bytes>
    requires k <= |files|
  {
    files[|files| - k..]
  }

  function Pruned(files: seq<Bytes>): seq<Bytes> {
    Newest(files, Fitting(files, 0, 0))
  }

  predicate Fits(files: seq<Bytes>, k: nat, index: nat, total: nat)
    requires k <= |files|
  {
    k == 0 || (index + k <= MAX_SESSION_FILES && total + Total(Newest(files, k)) <= MAX_DIR_BYTES)
  }

  lemma {:induction false} TotalSplit(files: seq<Bytes>, k: nat)
    requires k <= |files|
    ensures Total(files) == Total(files[..|files| - k]) + Total(Newest(files, k))
  {
    if k > 0 {
      var prefix, last := files[..|files| - 1], |files| - 1;
      TotalSplit(prefix, k - 1);
      assert Newest(files, k)[..k - 1] == Newest(prefix, k - 1);
      assert prefix[..|prefix| - (k - 1)] == files[..|files| - k];
    } else {
      assert files[..|files|] == files;
    }
  }

  /** Pruning keeps the longest run of newest files that respects both caps. */
  lemma {:induction false} FittingIsLargest(files: seq<Bytes>, index: nat, total: nat)
    ensures Fits(files, Fitting(files, index, total), index, total)
    ensures forall k :: Fitting(files, index, total) < k <= |files| ==> !Fits(files, k, index, total)
  {
    if files != [] {
      var prefix, newest := files[..|files| - 1], files[|files| - 1];
      FittingIsLargest(prefix, index + 1, total + |newest|);
      forall k | 1 <= k <= |files|
        ensures Total(Newest(files, k)) == Total(Newest(prefix, k - 1)) + |newest|
      {
        assert Newest(files, k)[..k - 1] == Newest(prefix, k - 1);
      }
      if index >= MAX_SESSION_FILES || total + |newest| > MAX_DIR_BYTES {
        assert Fitting(files, index, total) == 0;
      } else {
        forall k | Fitting(files, index, total) < k <= |files| ensures !Fits(files, k, index, total) {
          assert k - 1 >= 1 ==> !Fits(prefix, k - 1, index + 1, total + |newest|);
        }
      }
    }
  }

  lemma {:induction false} PrunedFacts(files: seq<Bytes>)
    ensures |Pruned(files)| <= MAX_SESSION_FILES && Total(Pruned(files)) <= MAX_DIR_BYTES
    ensures files != [] && files[|files| - 1] == [] ==> Pruned(files) != [] && Pruned(files)[|Pruned(files)| - 1] == []
  {
    FittingIsLargest(files, 0, 0);
  }

  // ------------------------------------------------------------------------------- runs

  /** `written` is the byte count of the open file, which is the newest one. */
  datatype State = State(files: seq<Bytes>, written: nat, open: bool)

  const NEW_STATE := State([], 0, false)

  /** A launch with logging on, or one write of which the file takes the first `n` bytes. */
  datatype Action = Launch | Write(buf: Bytes, n: nat)

  /** Startup: prune, then open a new file. */
  function Launched(s: State): State {
    State(Pruned(s.files) + [[]], 0, true)
  }

  function Rolled(s: State): State {
    State(Pruned(s.files + [[]]), 0, s.open)
  }

  function Appended(files: seq<Bytes>, data: Bytes): seq<Bytes>
    requires files != []
  {
    files[..|files| - 1] + [files[|files| - 1] + data]
  }

  predicate MustRoll(s: State, size: nat) {
    s.written > 0 && s.written + size > MAX_FILE_BYTES
  }

  function Step(s: State, a: Action): State {
    match a
    case Launch => Launched(s)
    case Write(buf, n) =>
      if !s.open || n > |buf| then s
      else
        var s1 := if MustRoll(s, |buf|) then Rolled(s) else s;
        if s1.files == [] then s1 else State(Appended(s1.files, buf[..n]), s1.written + n, true)
  }

  function Run(actions: seq<Action>): State {
    if actions == [] then NEW_STATE else Step(Run(actions[..|actions| - 1]), actions[|actions| - 1])
  }

  /** Everything the log accepted, in order, over all sessions. */
  function Accepted(actions: seq<Action>): Bytes {
    if actions == [] then []
    else
      var prefix, a := actions[..|actions| - 1], actions[|actions| - 1];
      Accepted(prefix) + (if a.Write? && a.n <= |a.buf| && Run(prefix).open then a.buf[..a.n] else [])
  }

  predicate IsSuffix(s: Bytes, all: Bytes) {
    |s| <= |all| && all[|all| - |s|..] == s
  }

  predicate Inv(s: State, accepted: Bytes) {
    && IsSuffix(Concat(s.files), accepted)
    && |s.files| <= MAX_SESSION_FILES + 1
    && (s.open ==> s.files != [] && s.written == |s.files[|s.files| - 1]|)
    && (s.files != [] ==> Total(s.files[..|s.files| - 1]) <= MAX_DIR_BYTES)
  }

  lemma {:induction false} ConcatSnoc(files: seq<Bytes>, f: Bytes)
    ensures Concat(files + [f]) == Concat(files) + f
    ensures Total(files + [f]) == Total(files) + |f|
  {
    assert (files + [f])[..|files|] == files;
  }

  lemma {:induction false} NewestIsSuffix(files: seq<Bytes>, k: nat)
    requires k <= |files|
    ensures IsSuffix(Concat(Newest(files, k)), Concat(files))
  {
    if k == 0 {
      assert Newest(files, 0) == [];
    } else {
      var prefix := files[..|files| - 1];
      NewestIsSuffix(prefix, k - 1);
      assert Newest(files, k)[..k - 1] == Newest(prefix, k - 1);
    }
  }

  lemma {:induction false} SuffixOfSuffix(a: Bytes, b: Bytes, c: Bytes, tail: Bytes)
    requires IsSuffix(a, b) && IsSuffix(b, c)
    ensures IsSuffix(a + tail, c + tail)
  {
    assert c[|c| - |a|..] == b[|b| - |a|..];
    assert (c + tail)[|c + tail| - |a + tail|..] == c[|c| - |a|..] + tail;
  }

  lemma {:induction false} PruneKeepsSuffix(files: seq<Bytes>, accepted: Bytes)
    requires IsSuffix(Concat(files), accepted)
    ensures IsSuffix(Concat(Pruned(files)), accepted)
  {
    NewestIsSuffix(files, Fitting(files, 0, 0));
    SuffixOfSuffix(Concat(Pruned(files)), Concat(files), accepted, []);
    assert Concat(Pruned(files)) + [] == Concat(Pruned(files)) && accepted + [] == accepted;
  }

  lemma {:induction false} LaunchKeepsInv(s: State, accepted: Bytes)
    requires Inv(s, accepted)
    ensures Inv(Launched(s), accepted)
  {
    PrunedFacts(s.files);
    PruneKeepsSuffix(s.files, accepted);
    ConcatSnoc(Pruned(s.files), []);
    assert Concat(Pruned(s.files)) + [] == Concat(Pruned(s.files));
    assert Launched(s).files[..|Launched(s).files| - 1] == Pruned(s.files);
  }

  lemma {:induction false} RollKeepsInv(s: State, accepted: Bytes)
    requires Inv(s, accepted)
    ensures Inv(Rolled(s), accepted) && Rolled(s).files != []
    ensures Rolled(s).files[|Rolled(s).files| - 1] == [] && |Rolled(s).files| <= MAX_SESSION_FILES
  {
    var files := s.files + [[]];
    PrunedFacts(files);
    ConcatSnoc(s.files, []);
    assert Concat(s.files) + [] == Concat(s.files);
    PruneKeepsSuffix(files, accepted);
  }

  lemma {:induction false} AppendKeepsInv(s: State, accepted: Bytes, data: Bytes)
    requires Inv(s, accepted) && s.open
    ensures Inv(State(Appended(s.files, data), s.written + |data|, true), accepted + data)
  {
    var last := |s.files| - 1;
    var older, newest := s.files[..last], s.files[last];
    assert s.files == older + [newest];
    ConcatSnoc(older, newest);
    ConcatSnoc(older, newest + data);
    assert Concat(Appended(s.files, data)) == Concat(s.files) + data;
    SuffixOfSuffix(Concat(s.files), Concat(s.files), accepted, data);
    assert Appended(s.files, data)[..last] == older;
  }

  lemma {:induction false} RunKeepsInv(actions: seq<Action>)
    ensures Inv(Run(actions), Accepted(actions))
  {
    if actions != [] {
      var prefix, a := actions[..|actions| - 1], actions[|actions| - 1];
      RunKeepsInv(prefix);
      var s := Run(prefix);
      match a
      case Launch =>
        LaunchKeepsInv(s, Accepted(prefix));
        assert Accepted(actions) == Accepted(prefix);
      case Write(buf, n) =>
        if s.open && n <= |buf| {
          RollKeepsInv(s, Accepted(prefix));
          AppendKeepsInv(if MustRoll(s, |buf|) then Rolled(s) else s, Accepted(prefix), buf[..n]);
        } else {
          assert Accepted(actions) == Accepted(prefix);
        }
    }
  }

  /** No single write is larger than one file may be. */
  predicate SmallWrites(actions: seq<Action>) {
    forall a :: a in actions && a.Write? ==> |a.buf| <= MAX_FILE_BYTES
  }

  lemma {:induction false} OpenFileIsSmall(actions: seq<Action>)
    requires SmallWrites(actions)
    ensures Run(actions).written <= MAX_FILE_BYTES
  {
    if actions != [] {
      assert actions[|actions| - 1] in actions;
      OpenFileIsSmall(actions[..|actions| - 1]);
    }
  }

  /**
    Over any run of launches and writes, the files read oldest first are a suffix of everything
    written; the file that is being written is always among them, as the newest; at most four
    exist; the older ones hold at most 4 MiB, so with writes of at most 1 MiB the directory holds
    at most 5 MiB.
   */
  lemma {:induction false} LogsKeepASuffix(actions: seq<Action>)
    ensures var s := Run(actions);
            && IsSuffix(Concat(s.files), Accepted(actions))
            && (s.open ==> s.files != [] && s.written == |s.files[|s.files| - 1]|)
            && |s.files| <= MAX_SESSION_FILES + 1
            && (s.open ==> Total(s.files) <= MAX_DIR_BYTES + s.written)
            && (SmallWrites(actions) ==> Total(s.files) <= MAX_DIR_BYTES + MAX_FILE_BYTES)
  {
    RunKeepsInv(actions);
    var s := Run(actions);
    OpenOnceLaunched(actions);
    if s.files != [] {
      assert Total(s.files) == Total(s.files[..|s.files| - 1]) + |s.files[|s.files| - 1]|;
    }
    if SmallWrites(actions) {
      OpenFileIsSmall(actions);
    }
  }

  lemma {:induction false} OpenOnceLaunched(actions: seq<Action>)
    ensures !Run(actions).open ==> Run(actions).files == []
  {
    if actions != [] {
      OpenOnceLaunched(actions[..|actions| - 1]);
    }
  }

  /** A write that fits in the file, or finds it empty, loses nothing that is kept. */
  lemma {:induction false} FittingWriteLosesNothing(s: State, buf: Bytes, n: nat)
    requires s.open && s.files != [] && n <= |buf|
    requires s.written == 0 || s.written + |buf| <= 1024 * 1024
    ensures var after := Step(s, Write(buf, n));
            Concat(after.files) == Concat(s.files) + buf[..n] && |after.files| == |s.files|
  {
    var last := |s.files| - 1;
    var older, newest := s.files[..last], s.files[last];
    assert s.files == older + [newest];
    ConcatSnoc(older, newest);
    ConcatSnoc(older, newest + buf[..n]);
  }

  /** Any other write starts a file of its own. */
  lemma {:induction false} OtherWriteStartsFile(s: State, buf: Bytes, n: nat, accepted: Bytes)
    requires s.open && Inv(s, accepted) && n <= |buf|
    requires s.written > 0 && s.written + |buf| > 1024 * 1024
    ensures var after := Step(s, Write(buf, n)).files;
            after != [] && after[|after| - 1] == buf[..n] && |after| <= 3
  {
    RollKeepsInv(s, accepted);
    assert [] + buf[..n] == buf[..n];
  }

  // ------------------------------------------------------------------------ the objects

  class RollingWriter {
    var files: seq<Bytes>
    var written: nat

    ghost function View(): State
      reads this
    {
      State(files, written, true)
    }

    /** `prune`, newest first, with a running total that counts removed files too. */
    static method PruneFiles(files: seq<Bytes>) returns (kept: seq<Bytes>)
      ensures kept == Pruned(files)
    {
      kept := [];
      var total, index := 0, 0;
      ghost var keeping := true;
      assert files[..|files| - 0] == files;
      while index < |files|
        invariant 0 <= index <= |files|
        invariant |kept| <= index && kept == Newest(files, |kept|)
        invariant total == Total(Newest(files, index))
        invariant keeping ==> |kept| == index
                              && Fitting(files, 0, 0) == index + Fitting(files[..|files| - index], index, total)
        invariant !keeping ==> |kept| == Fitting(files, 0, 0) && (index >= MAX_SESSION_FILES || total > MAX_DIR_BYTES)
      {
        var i := |files| - 1 - index;
        OneOlder(files, index, total);
        total := total + |files[i]|;
        if index >= MAX_SESSION_FILES || total > MAX_DIR_BYTES {
          keeping := false;
        } else {
          kept := [files[i]] + kept;
        }
        index := index + 1;
      }
      assert files[..0] == [];
    }

    constructor (existing: seq<Bytes>, ghost wasWritten: nat, ghost wasOpen: bool)
      ensures View() == Launched(State(existing, wasWritten, wasOpen))
    {
      var kept := PruneFiles(existing);
      files := kept + [[]];
      written := 0;
    }

    /** A new file, and then a prune that spares it. */
    method Roll()
      modifies this
      ensures View() == Rolled(old(View()))
      ensures files != [] && files[|files| - 1] == [] && |files| <= MAX_SESSION_FILES
      ensures Total(files) <= MAX_DIR_BYTES
    {
      PrunedFacts(files + [[]]);
      files := files + [[]];
      written := 0;
      files := PruneFiles(files);
    }

    /** The file takes the first `n` bytes of `buf`. */
    method WriteBytes(buf: Bytes, n: nat, ghost accepted: Bytes)
      requires n <= |buf| && Inv(View(), accepted)
      modifies this
      ensures View() == Step(old(View()), Write(buf, n))
      ensures Inv(View(), accepted + buf[..n])
    {
      RollKeepsInv(View(), accepted);
      if written > 0 && written + |buf| > MAX_FILE_BYTES {
        Roll();
      }
      AppendKeepsInv(View(), accepted, buf[..n]);
      files := files[..|files| - 1] + [files[|files| - 1] + buf[..n]];
      written := written + n;
    }
  }

  lemma {:induction false} OneOlder(files: seq<Bytes>, index: nat, total: nat)
    requires index < |files|
    ensures var i := |files| - 1 - index;
            && Newest(files, index + 1) == [files[i]] + Newest(files, index)
            && Total(Newest(files, index + 1)) == Total(Newest(files, index)) + |files[i]|
            && Fitting(files[..i + 1], index, total)
               == if index >= MAX_SESSION_FILES || total + |files[i]| > MAX_DIR_BYTES then 0
                  else 1 + Fitting(files[..i], index + 1, total + |files[i]|)
  {
    var i := |files| - 1 - index;
    assert files[..i + 1][..i] == files[..i];
    assert Newest(files, index + 1) == [files[i]] + Newest(files, index);
    TotalCons(files[i], Newest(files, index));
  }

  lemma {:induction false} TotalCons(f: Bytes, files: seq<Bytes>)
    ensures Total([f] + files) == |f| + Total(files)
  {
    TotalSplit([f] + files, |files|);
    assert ([f] + files)[..1] == [f] && Newest([f] + files, |files|) == files;
    assert [f][..0] == [];
  }
}
