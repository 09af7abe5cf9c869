/** Crashes at any byte of a batch append, and what a retry makes of them. */
module SignalLedgerRuns {
  import opened Sequences
  import opened SignalLedger

  lemma {:induction false} SplitPrefix(f: string, n: nat)
    requires n <= |f|
    ensures Split(f[..n]).whole <= Split(f).whole
  {
    if n < |f| {
      var front := f[..|f| - 1];
      assert front[..n] == f[..n];
      SplitPrefix(front, n);
    } else {
      assert f[..n] == f;
    }
  }

  function Landed(batch: seq<Record>, n: nat): nat {
    var bytes := Join(Texts(batch));
    |Split(bytes[..if n < |bytes| then n else |bytes|]).whole|
  }

  lemma TextsHaveNoNewline(idOf: string -> string, batch: seq<Record>)
    requires Sound(idOf, batch)
    ensures forall line :: line in Texts(batch) ==> '\n' !in line
  {
    forall line | line in Texts(batch)
      ensures '\n' !in line
    {
      var i :| 0 <= i < |batch| && Texts(batch)[i] == line;
      assert batch[i] in batch;
    }
  }

  /** The records that landed whole are the first ones of the batch. */
  lemma TornBatch(idOf: string -> string, batch: seq<Record>, n: nat)
    requires Sound(idOf, batch)
    ensures Landed(batch, n) <= |batch|
    ensures var bytes := Join(Texts(batch));
            Split(bytes[..if n < |bytes| then n else |bytes|]).whole == Texts(batch[..Landed(batch, n)])
    ensures n >= |Join(Texts(batch))| ==> Landed(batch, n) == |batch|
  {
    var bytes := Join(Texts(batch));
    var k := if n < |bytes| then n else |bytes|;
    TextsHaveNoNewline(idOf, batch);
    JoinSplits(Texts(batch));
    SplitPrefix(bytes, k);
    var m := Landed(batch, n);
    assert bytes[..|bytes|] == bytes;
    assert Split(bytes[..k]).whole == Texts(batch)[..m];
    assert Texts(batch[..m]) == Texts(batch)[..m];
  }

  lemma SoundPrefix(idOf: string -> string, batch: seq<Record>, m: nat)
    requires Sound(idOf, batch) && m <= |batch|
    ensures Sound(idOf, batch[..m]) && BatchIds(batch[..m]) == BatchIds(batch)[..m]
  {
    assert forall r :: r in batch[..m] ==> r in batch;
  }

  /** Healing and consulting the index leave the stored ids alone. */
  lemma ReadyKeepsIds(idOf: string -> string, d: Disk, t: Times)
    ensures FileIds(idOf, Ready(idOf, d, t)) == FileIds(idOf, d)
    ensures Split(Content(Ready(idOf, d, t))).tail == ""
  {
    HealedTail(d, t.heal);
  }

  lemma GrowAddsIds(idOf: string -> string, d: Disk, text: string, now: real)
    requires Split(Content(d)).tail == ""
    ensures FileIds(idOf, Grow(d, text, now)) == FileIds(idOf, d) + StoredIds(idOf, Split(text).whole)
  {
    SplitAppend(Content(d), text);
    StoredConcat(idOf, Split(Content(d)).whole, Split(text).whole);
  }

  /** What a call that finds no duplicate adds to the file, up to its crash. */
  lemma AppendAddsIds(idOf: string -> string, d: Disk, batch: seq<Record>, t: Times, cut: Cut)
    requires Sound(idOf, batch) && batch != [] && Existing(Ready(idOf, d, t), batch) == {}
    requires cut.AfterBytes? || cut.Complete?
    ensures var m := if cut.Complete? then |batch| else Landed(batch, cut.n);
            m <= |batch| && FileIds(idOf, AppendBatch(idOf, d, batch, t, cut)) == FileIds(idOf, d) + BatchIds(batch)[..m]
  {
    hide Split, StoredIds, Join;
    var n := if cut.Complete? then |Join(Texts(batch))| else cut.n;
    var bytes := Join(Texts(batch));
    var text := bytes[..if n < |bytes| then n else |bytes|];
    assert n >= |bytes| ==> text == bytes;
    TornBatch(idOf, batch, n);
    SoundPrefix(idOf, batch, Landed(batch, n));
    StoredBatch(idOf, batch[..Landed(batch, n)]);
    ReadyKeepsIds(idOf, d, t);
    GrowAddsIds(idOf, Ready(idOf, d, t), text, t.append);
  }

  lemma RefusedKeepsIds(idOf: string -> string, d: Disk, batch: seq<Record>, t: Times, cut: Cut)
    requires batch == [] || cut.AfterHeal? || cut.AfterRebuild? || Existing(Ready(idOf, d, t), batch) != {}
    ensures FileIds(idOf, AppendBatch(idOf, d, batch, t, cut)) == FileIds(idOf, d)
  {
    ReadyKeepsIds(idOf, d, t);
    HealedTail(d, t.heal);
  }

  // -------------------------------------------------------------------------
  // When ids stay unique
  // -------------------------------------------------------------------------

  /** The call reads the truth: the ids it consults are those on file. */
  ghost predicate Trusted(idOf: string -> string, d: Disk, t: Times) {
    Known(Ready(idOf, d, t)) == SetOf(FileIds(idOf, d))
  }

  /** A rebuilt index is the truth. */
  lemma RebuiltIsTrusted(idOf: string -> string, d: Disk, t: Times)
    requires NeedsRebuild(Heal(d, t.heal))
    ensures Trusted(idOf, d, t)
  {
    HealedTail(d, t.heal);
  }

  lemma DistinctConcat<T(!new)>(a: seq<T>, b: seq<T>)
    ensures Distinct(a + b) <==> Distinct(a) && Distinct(b) && forall x :: x in a ==> x !in b
  {
    if Distinct(a + b) {
      DistinctParts(a, b);
    } else {
      var i, j :| 0 <= i < j < |a + b| && (a + b)[i] == (a + b)[j];
      if i < |a| <= j {
        assert a[i] in a && b[j - |a|] in b && a[i] == b[j - |a|];
      }
    }
  }

  lemma DistinctParts<T(!new)>(a: seq<T>, b: seq<T>)
    requires Distinct(a + b)
    ensures Distinct(a) && Distinct(b) && forall x :: x in a ==> x !in b
  {
    var s := a + b;
    forall i, j | 0 <= i < j < |a|
      ensures a[i] != a[j]
    {
      assert s[i] == a[i] && s[j] == a[j];
    }
    forall i, j | 0 <= i < j < |b|
      ensures b[i] != b[j]
    {
      assert s[|a| + i] == b[i] && s[|a| + j] == b[j];
    }
    forall i, j | 0 <= i < |a| && 0 <= j < |b|
      ensures a[i] != b[j]
    {
      assert s[i] == a[i] && s[|a| + j] == b[j];
    }
  }

  /**
   * Whatever batch of distinct ids comes next, the ids on file stay distinct exactly if every id on
   * file is among those consulted.
   */
  lemma StaysDistinctIff(idOf: string -> string, d: Disk, t: Times)
    requires Distinct(FileIds(idOf, d))
    ensures (forall batch :: Sound(idOf, batch) && Distinct(BatchIds(batch)) ==>
               Distinct(FileIds(idOf, AppendBatch(idOf, d, batch, t, Complete))))
            <==> SetOf(FileIds(idOf, d)) <= Known(Ready(idOf, d, t))
  {
    hide FileIds, AppendBatch, Ready, Sound, BatchIds, Distinct;
    if SetOf(FileIds(idOf, d)) <= Known(Ready(idOf, d, t)) {
      forall batch | Sound(idOf, batch) && Distinct(BatchIds(batch))
        ensures Distinct(FileIds(idOf, AppendBatch(idOf, d, batch, t, Complete)))
      {
        CallKeepsDistinct(idOf, d, batch, t, Complete);
      }
    } else {
      var id :| id in FileIds(idOf, d) && id !in Known(Ready(idOf, d, t));
      var batch := UnseenDuplicate(idOf, d, t, id);
    }
  }

  lemma CallKeepsDistinct(idOf: string -> string, d: Disk, batch: seq<Record>, t: Times, cut: Cut)
    requires Sound(idOf, batch) && Distinct(BatchIds(batch)) && Distinct(FileIds(idOf, d))
    requires SetOf(FileIds(idOf, d)) <= Known(Ready(idOf, d, t))
    ensures Distinct(FileIds(idOf, AppendBatch(idOf, d, batch, t, cut)))
  {
    hide FileIds, AppendBatch, Ready, Sound, BatchIds;
    if batch == [] || cut.AfterHeal? || cut.AfterRebuild? || Existing(Ready(idOf, d, t), batch) != {} {
      RefusedKeepsIds(idOf, d, batch, t, cut);
    } else {
      AppendAddsIds(idOf, d, batch, t, cut);
      BatchIdsLength(batch);
      var m := if cut.Complete? then |batch| else Landed(batch, cut.n);
      var more := BatchIds(batch)[..m];
      FreshIds(idOf, d, batch, t);
      assert forall x :: x in more ==> x in BatchIds(batch);
      DistinctConcat(FileIds(idOf, d), more);
    }
  }

  /** An id on file that the call does not know is written a second time. */
  lemma UnseenDuplicate(idOf: string -> string, d: Disk, t: Times, id: string) returns (batch: seq<Record>)
    requires id in FileIds(idOf, d) && id !in Known(Ready(idOf, d, t))
    ensures Sound(idOf, batch) && Distinct(BatchIds(batch))
    ensures !Distinct(FileIds(idOf, AppendBatch(idOf, d, batch, t, Complete)))
  {
    hide AppendBatch, Ready, Known;
    var line := LineOf(idOf, Split(Content(d)).whole, id);
    LinesArePlain(Content(d));
    batch := [Record(id, line)];
    assert BatchIds(batch) == [id];
    assert Existing(Ready(idOf, d, t), batch) == {};
    AppendAddsIds(idOf, d, batch, t, Complete);
    assert [id][..1] == [id];
    DistinctConcat(FileIds(idOf, d), [id]);
  }

  lemma {:induction false} LineOf(idOf: string -> string, lines: seq<string>, id: string) returns (line: string)
    requires id in StoredIds(idOf, lines)
    ensures line in lines && line != "" && idOf(line) == id != ""
  {
    var front, last := lines[..|lines| - 1], lines[|lines| - 1];
    if IdOn(idOf, last) == id && id != "" {
      line := last;
    } else {
      line := LineOf(idOf, front, id);
    }
  }

  // -------------------------------------------------------------------------
  // Crash and retry
  // -------------------------------------------------------------------------

  lemma {:induction false} DistinctSize<T>(s: seq<T>)
    requires forall i, j :: 0 <= i < j < |s| ==> s[i] != s[j]
    ensures |set x | x in s| == |s|
  {
    if s != [] {
      var n := |s| - 1;
      DistinctSize(s[..n]);
      assert (set x | x in s) == (set x | x in s[..n]) + {s[n]};
    }
  }

  /**
   * A batch of new ids whose write crashed after `n` bytes, retried: all of it is written if no record
   * had landed, nothing if all had, and the call raises if some had; no id is stored twice.
   */
  lemma RetryAfterCrash(idOf: string -> string, d: Disk, batch: seq<Record>, t: Times, n: nat, t': Times)
    requires Sound(idOf, batch) && Distinct(BatchIds(batch)) && batch != [] && Distinct(FileIds(idOf, d))
    requires Trusted(idOf, d, t) && Existing(Ready(idOf, d, t), batch) == {}
    requires Trusted(idOf, AppendBatch(idOf, d, batch, t, AfterBytes(n)), t')
    ensures
      var crashed := AppendBatch(idOf, d, batch, t, AfterBytes(n));
      var m := Landed(batch, n);
      var final := FileIds(idOf, AppendBatch(idOf, crashed, batch, t', Complete));
      && m <= |batch|
      && Reply(idOf, crashed, batch, t') ==
         (if m == 0 then Ok(|batch|) else if m == |batch| then Ok(0) else Err("LedgerWriteError"))
      && final == FileIds(idOf, d) + BatchIds(batch)[..if m == 0 then |batch| else m]
      && Distinct(final)
  {
    hide FileIds, AppendBatch, Ready, Sound, BatchIds;
    var crashed := AppendBatch(idOf, d, batch, t, AfterBytes(n));
    AppendAddsIds(idOf, d, batch, t, AfterBytes(n));
    var m := Landed(batch, n);
    var ids := BatchIds(batch);
    CallKeepsDistinct(idOf, d, batch, t, AfterBytes(n));
    CallKeepsDistinct(idOf, crashed, batch, t', Complete);
    BatchIdsLength(batch);
    LandedIds(ids, FileIds(idOf, d), m);
    assert Existing(Ready(idOf, crashed, t'), batch) == SetOf(ids[..m]);
    DistinctSize(ids[..m]);
    if m == 0 {
      AppendAddsIds(idOf, crashed, batch, t', Complete);
      assert FileIds(idOf, d) + ids[..0] == FileIds(idOf, d);
    } else {
      assert ids[0] in ids[..m];
      RefusedKeepsIds(idOf, crashed, batch, t', Complete);
    }
  }

  lemma BatchIdsLength(batch: seq<Record>)
    ensures |BatchIds(batch)| == |batch|
  {
  }

  lemma LandedIds(ids: seq<string>, stored: seq<string>, m: nat)
    requires m <= |ids| && SetOf(ids) * SetOf(stored) == {}
    ensures SetOf(ids) * SetOf(stored + ids[..m]) == SetOf(ids[..m])
  {
    assert forall x :: x in ids && x in stored ==> x in SetOf(ids) * SetOf(stored);
  }

  /**
   * The retry stores an id twice exactly if some record had landed and the staleness test misses it:
   * after healing, the file is at most one second newer than the index.
   */
  lemma RetryDuplicatesIff(idOf: string -> string, d: Disk, batch: seq<Record>, t: Times, n: nat, t': Times)
    requires Sound(idOf, batch) && Distinct(BatchIds(batch)) && batch != [] && Distinct(FileIds(idOf, d))
    requires Trusted(idOf, d, t) && Existing(Ready(idOf, d, t), batch) == {}
    ensures
      var crashed := AppendBatch(idOf, d, batch, t, AfterBytes(n));
      Distinct(FileIds(idOf, AppendBatch(idOf, crashed, batch, t', Complete)))
      <==> Landed(batch, n) == 0 || NeedsRebuild(Heal(crashed, t'.heal))
  {
    hide FileIds, Sound, BatchIds, Split, Known, Join, Landed, Distinct;
    var crashed := AppendBatch(idOf, d, batch, t, AfterBytes(n));
    if NeedsRebuild(Heal(crashed, t'.heal)) {
      RebuiltIsTrusted(idOf, crashed, t');
      RetryAfterCrash(idOf, d, batch, t, n, t');
    } else {
      AppendAddsIds(idOf, d, batch, t, AfterBytes(n));
      SameKnown(idOf, d, batch, t, n, t');
      AppendAddsIds(idOf, crashed, batch, t', Complete);
      BatchIdsLength(batch);
      WrittenTwice(FileIds(idOf, d), BatchIds(batch), Landed(batch, n));
      FreshIds(idOf, d, batch, t);
    }
  }

  lemma SameKnown(idOf: string -> string, d: Disk, batch: seq<Record>, t: Times, n: nat, t': Times)
    requires batch != [] && Existing(Ready(idOf, d, t), batch) == {}
    requires !NeedsRebuild(Heal(AppendBatch(idOf, d, batch, t, AfterBytes(n)), t'.heal))
    ensures Existing(Ready(idOf, AppendBatch(idOf, d, batch, t, AfterBytes(n)), t'), batch) == {}
  {
  }

  lemma FreshIds(idOf: string -> string, d: Disk, batch: seq<Record>, t: Times)
    requires SetOf(FileIds(idOf, d)) <= Known(Ready(idOf, d, t)) && Existing(Ready(idOf, d, t), batch) == {}
    ensures forall x :: x in FileIds(idOf, d) ==> x !in BatchIds(batch)
  {
    hide FileIds, Ready, BatchIds;
    assert forall x :: x in BatchIds(batch) && x in Known(Ready(idOf, d, t)) ==> x in Existing(Ready(idOf, d, t), batch);
  }

  lemma WrittenTwice(stored: seq<string>, ids: seq<string>, m: nat)
    requires m <= |ids| && Distinct(stored) && Distinct(ids) && ids[..|ids|] == ids
    ensures (forall x :: x in stored ==> x !in ids) ==>
              (Distinct(stored + ids[..m] + ids[..|ids|]) <==> m == 0)
  {
    DistinctConcat(stored + ids[..m], ids);
    DistinctConcat(stored, ids[..m]);
    if m > 0 {
      assert ids[0] in ids && ids[0] in ids[..m];
    }
  }

  /**
   * A concrete family: a call that rebuilds the index, appends within a second, and crashes once its
   * records are on file. The retry does not see them and writes every record again.
   */
  lemma RebuildThenCrash(idOf: string -> string, d: Disk, batch: seq<Record>, t: Times, t': Times)
    requires Sound(idOf, batch) && Distinct(BatchIds(batch)) && batch != [] && Distinct(FileIds(idOf, d))
    requires NeedsRebuild(Heal(d, t.heal)) && t.append <= t.rebuild + 1.0
    requires Existing(Ready(idOf, d, t), batch) == {}
    ensures
      var crashed := AppendBatch(idOf, d, batch, t, AfterBytes(|Join(Texts(batch))|));
      && Reply(idOf, crashed, batch, t') == Ok(|batch|)
      && !Distinct(FileIds(idOf, AppendBatch(idOf, crashed, batch, t', Complete)))
  {
    hide FileIds, Sound, BatchIds, Distinct, Known;
    var n := |Join(Texts(batch))|;
    RebuiltIsTrusted(idOf, d, t);
    TornBatch(idOf, batch, n);
    WholeBatchHasNoTail(idOf, d, batch, t);
    SameKnown(idOf, d, batch, t, n, t');
    RetryDuplicatesIff(idOf, d, batch, t, n, t');
  }

  lemma WholeBatchHasNoTail(idOf: string -> string, d: Disk, batch: seq<Record>, t: Times)
    requires Sound(idOf, batch) && batch != [] && Existing(Ready(idOf, d, t), batch) == {}
    ensures Split(Content(AppendBatch(idOf, d, batch, t, AfterBytes(|Join(Texts(batch))|)))).tail == ""
  {
    hide Split, Join;
    var bytes := Join(Texts(batch));
    assert bytes[..|bytes|] == bytes;
    TextsHaveNoNewline(idOf, batch);
    JoinSplits(Texts(batch));
    ReadyKeepsIds(idOf, d, t);
    SplitAppend(Content(Ready(idOf, d, t)), bytes);
  }

  // -------------------------------------------------------------------------
  // Runs in which staleness shows
  // -------------------------------------------------------------------------

  datatype Call = Call(batch: seq<Record>, times: Times, cut: Cut)

  const INITIAL := Disk(None, 0.0, NoIndex, 0.0)

  /** Truncation does not turn the clock back, and no append that crashes falls within a second of an index save. */
  ghost predicate Spaced(idOf: string -> string, d: Disk, c: Call) {
    var ready := Ready(idOf, d, c.times);
    d.fileTime <= c.times.heal && (c.cut.AfterBytes? && ready.index.Ids? ==> c.times.append > ready.indexTime + 1.0)
  }

  ghost predicate Permitted(idOf: string -> string, d: Disk, c: Call) {
    Sound(idOf, c.batch) && Distinct(BatchIds(c.batch)) && Spaced(idOf, d, c)
  }

  ghost function After(idOf: string -> string, calls: seq<Call>): Option<Disk> {
    if calls == [] then Some(INITIAL)
    else
      var c := calls[|calls| - 1];
      match After(idOf, calls[..|calls| - 1])
      case None => None
      case Some(d) => if Permitted(idOf, d, c) then Some(AppendBatch(idOf, d, c.batch, c.times, c.cut)) else None
  }

  /** A stale index is visibly older than the file. */
  ghost predicate InStep(idOf: string -> string, d: Disk) {
    && !d.index.Unparseable?
    && (d.index.Ids? && (d.file.None? || d.fileTime <= d.indexTime + 1.0) ==> d.index.ids == SetOf(FileIds(idOf, d)))
  }

  lemma InStepIsTrusted(idOf: string -> string, d: Disk, c: Call)
    requires InStep(idOf, d) && Spaced(idOf, d, c)
    ensures Trusted(idOf, d, c.times) && InStep(idOf, Heal(d, c.times.heal)) && InStep(idOf, Ready(idOf, d, c.times))
  {
    HealedTail(d, c.times.heal);
  }

  lemma CallKeepsInStep(idOf: string -> string, d: Disk, c: Call)
    requires InStep(idOf, d) && Permitted(idOf, d, c)
    ensures InStep(idOf, AppendBatch(idOf, d, c.batch, c.times, c.cut))
    ensures c.cut.Complete? && c.batch != [] && Reply(idOf, d, c.batch, c.times).Ok? ==>
              var after := AppendBatch(idOf, d, c.batch, c.times, c.cut);
              after.index == Ids(SetOf(FileIds(idOf, after)))
  {
    hide FileIds, Sound, BatchIds, Distinct, Split, Join, Landed;
    InStepIsTrusted(idOf, d, c);
    var ready := Ready(idOf, d, c.times);
    ReadyKeepsIds(idOf, d, c.times);
    if c.batch != [] && !c.cut.AfterHeal? && !c.cut.AfterRebuild? && Existing(ready, c.batch) == {} {
      AppendAddsIds(idOf, d, c.batch, c.times, c.cut);
      if c.cut.Complete? {
        BatchIdsLength(c.batch);
        assert BatchIds(c.batch)[..|c.batch|] == BatchIds(c.batch);
      }
    }
  }

  /**
   * Under such a clock no run of calls, crashing wherever they may, ever stores an id twice; and a
   * call that returns leaves the index with exactly the ids on file.
   */
  lemma {:induction false} SpacedRunsNeverDuplicate(idOf: string -> string, calls: seq<Call>)
    requires After(idOf, calls).Some?
    ensures InStep(idOf, After(idOf, calls).value) && Distinct(FileIds(idOf, After(idOf, calls).value))
    ensures calls != [] && calls[|calls| - 1].cut.Complete? && calls[|calls| - 1].batch != [] ==>
              var c := calls[|calls| - 1];
              var before := After(idOf, calls[..|calls| - 1]).value;
              var d := After(idOf, calls).value;
              Reply(idOf, before, c.batch, c.times).Ok? ==> d.index == Ids(SetOf(FileIds(idOf, d)))
  {
    hide FileIds, AppendBatch, Permitted, InStep, Distinct, Reply;
    if calls == [] {
      InitialInStep(idOf);
    } else {
      var c := calls[|calls| - 1];
      var d := After(idOf, calls[..|calls| - 1]).value;
      SpacedRunsNeverDuplicate(idOf, calls[..|calls| - 1]);
      CallKeepsInStep(idOf, d, c);
      PermittedParts(idOf, d, c);
      CallKeepsDistinct(idOf, d, c.batch, c.times, c.cut);
    }
  }

  lemma InitialInStep(idOf: string -> string)
    ensures InStep(idOf, INITIAL) && Distinct(FileIds(idOf, INITIAL))
  {
  }

  lemma PermittedParts(idOf: string -> string, d: Disk, c: Call)
    requires InStep(idOf, d) && Permitted(idOf, d, c)
    ensures Sound(idOf, c.batch) && Distinct(BatchIds(c.batch)) && Trusted(idOf, d, c.times)
  {
    InStepIsTrusted(idOf, d, c);
  }

  /**
   * An index that does not parse counts as empty, and is rebuilt only when the file is more than a second newer:
   * until then every id on file can be written a second time.
   */
  lemma BrokenIndexDuplicates(idOf: string -> string, d: Disk, t: Times, id: string) returns (batch: seq<Record>)
    requires d.index.Unparseable? && Split(Content(d)).tail == "" && d.fileTime <= d.indexTime + 1.0
    requires id in FileIds(idOf, d)
    ensures Sound(idOf, batch) && Distinct(BatchIds(batch))
    ensures !Distinct(FileIds(idOf, AppendBatch(idOf, d, batch, t, Complete)))
  {
    batch := UnseenDuplicate(idOf, d, t, id);
  }

  /** Without an index, or with one more than a second older than the healed file, the ids on file are consulted. */
  lemma StaleIndexIsRebuilt(idOf: string -> string, d: Disk, t: Times)
    requires d.file.Some?
    requires d.index.NoIndex? || Heal(d, t.heal).fileTime > d.indexTime + 1.0
    ensures Known(Ready(idOf, d, t)) == SetOf(FileIds(idOf, d))
  {
    HealedTail(d, t.heal);
    RebuiltIsTrusted(idOf, d, t);
  }

  /** A call that writes its batch stamps file and index: the next one rebuilds only if the append came a second after the save. */
  lemma WrittenIsStamped(idOf: string -> string, d: Disk, batch: seq<Record>, t: Times, heal: real)
    requires Sound(idOf, batch) && batch != [] && Existing(Ready(idOf, d, t), batch) == {}
    ensures var after := AppendBatch(idOf, d, batch, t, Complete);
      && after.fileTime == t.append && after.indexTime == t.save && Split(Content(after)).tail == ""
      && (NeedsRebuild(Heal(after, heal)) <==> t.append > t.save + 1.0)
  {
    hide Split, Join;
    WholeBatchHasNoTail(idOf, d, batch, t);
    var bytes := Join(Texts(batch));
    assert bytes[..|bytes|] == bytes;
  }
}
