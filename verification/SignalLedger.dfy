/** The signal ledger: a text file appended in batches, healed after a crash, with a sidecar index. */
module SignalLedger {
  import opened Sequences

  /** A record as written: its id and its line, which holds no newline and parses back to the id. */
  datatype Record = Record(id: string, text: string)

  /** The sidecar index; one that does not parse loads as empty. */
  datatype Index = NoIndex | Unparseable | Ids(ids: set<string>)

  datatype Disk = Disk(file: Option<string>, fileTime: real, index: Index, indexTime: real)

  /** The clock at the four writes of a call: healing, saving a rebuilt index, appending, saving the index. */
  datatype Times = Times(heal: real, rebuild: real, append: real, save: real)

  // -------------------------------------------------------------------------
  // Lines
  // -------------------------------------------------------------------------

  /** The complete lines of a text, and what follows the last newline. */
  datatype Lines = Lines(whole: seq<string>, tail: string)

  function Split(f: string): Lines {
    if f == "" then Lines([], "")
    else
      var before := Split(f[..|f| - 1]);
      if f[|f| - 1] == '\n' then Lines(before.whole + [before.tail], "")
      else Lines(before.whole, before.tail + [f[|f| - 1]])
  }

  function Join(lines: seq<string>): string {
    if lines == [] then "" else Join(lines[..|lines| - 1]) + lines[|lines| - 1] + "\n"
  }

  lemma SplitSnoc(f: string, c: char)
    ensures Split(f + [c]) ==
            if c == '\n' then Lines(Split(f).whole + [Split(f).tail], "") else Lines(Split(f).whole, Split(f).tail + [c])
  {
    assert (f + [c])[..|f|] == f;
  }

  /** A text that is empty or ends in a newline has no partial line. */
  lemma EndsInNewline(f: string)
    requires f == "" || f[|f| - 1] == '\n'
    ensures Split(f).tail == ""
  {
  }

  lemma JoinSnoc(lines: seq<string>, line: string)
    ensures Join(lines + [line]) == Join(lines) + line + "\n"
  {
    assert (lines + [line])[..|lines|] == lines;
  }

  /** Splitting loses nothing. */
  lemma {:induction false} SplitJoins(f: string)
    ensures f == Join(Split(f).whole) + Split(f).tail
  {
    if f != "" {
      hide Join;
      var front, c := f[..|f| - 1], f[|f| - 1];
      SplitJoins(front);
      assert f == front + [c];
      JoinSnoc(Split(front).whole, Split(front).tail);
    } else {
      assert Join([]) == "";
    }
  }

  /** No line holds a newline. */
  lemma {:induction false} LinesArePlain(f: string)
    ensures '\n' !in Split(f).tail && forall line :: line in Split(f).whole ==> '\n' !in line
  {
    if f != "" {
      LinesArePlain(f[..|f| - 1]);
    }
  }

  lemma {:induction false} SplitText(f: string, text: string)
    requires '\n' !in text
    ensures Split(f + text) == Lines(Split(f).whole, Split(f).tail + text)
  {
    hide Split;
    if text == "" {
      assert f + text == f && Split(f).tail + text == Split(f).tail;
    } else {
      var front, c := text[..|text| - 1], text[|text| - 1];
      SplitText(f, front);
      assert text == front + [c];
      assert f + text == (f + front) + [c];
      SplitSnoc(f + front, c);
      assert Split(f).tail + text == Split(f).tail + front + [c];
    }
  }

  /** Appending a text to a file that ends in a newline. */
  lemma {:induction false} SplitAppend(f: string, g: string)
    requires Split(f).tail == ""
    ensures Split(f + g) == Lines(Split(f).whole + Split(g).whole, Split(g).tail)
  {
    if g == "" {
      assert f + g == f;
    } else {
      hide Split;
      var front, c := g[..|g| - 1], g[|g| - 1];
      SplitAppend(f, front);
      assert g == front + [c];
      assert f + g == (f + front) + [c];
      SplitSnoc(f + front, c);
      SplitSnoc(front, c);
    }
  }

  /** Joined lines split back into themselves. */
  lemma {:induction false} JoinSplits(lines: seq<string>)
    requires forall line :: line in lines ==> '\n' !in line
    ensures Split(Join(lines)) == Lines(lines, "")
  {
    if lines != [] {
      var front, line := lines[..|lines| - 1], lines[|lines| - 1];
      assert lines == front + [line];
      JoinSplits(front);
      JoinSnoc(front, line);
      SplitText(Join(front), line);
      SplitSnoc(Join(front) + line, '\n');
      assert Join(lines) == Join(front) + line + ['\n'] && "" + line == line;
    }
  }

  // -------------------------------------------------------------------------
  // Ids
  // -------------------------------------------------------------------------

  /** The id found on a line; "" for a blank line, one that does not parse, or one without an id. */
  function IdOn(idOf: string -> string, line: string): string { if line == "" then "" else idOf(line) }

  /** The ids stored in the lines, in file order. */
  function StoredIds(idOf: string -> string, lines: seq<string>): seq<string> {
    if lines == [] then []
    else
      var rest := StoredIds(idOf, lines[..|lines| - 1]);
      if IdOn(idOf, lines[|lines| - 1]) == "" then rest else rest + [IdOn(idOf, lines[|lines| - 1])]
  }

  function SetOf(s: seq<string>): set<string> { set x | x in s }

  function Content(d: Disk): string { if d.file.Some? then d.file.value else "" }

  /** The ids on the complete lines of the file. */
  function FileIds(idOf: string -> string, d: Disk): seq<string> { StoredIds(idOf, Split(Content(d)).whole) }

  function BatchIds(batch: seq<Record>): seq<string> { seq(|batch|, i requires 0 <= i < |batch| => batch[i].id) }

  function Texts(batch: seq<Record>): seq<string> { seq(|batch|, i requires 0 <= i < |batch| => batch[i].text) }

  predicate Sound(idOf: string -> string, batch: seq<Record>) {
    forall r :: r in batch ==> r.id != "" && r.text != "" && idOf(r.text) == r.id && '\n' !in r.text
  }

  lemma StoredSnoc(idOf: string -> string, lines: seq<string>, line: string)
    ensures StoredIds(idOf, lines + [line]) ==
            StoredIds(idOf, lines) + if IdOn(idOf, line) == "" then [] else [IdOn(idOf, line)]
  {
    assert (lines + [line])[..|lines|] == lines;
  }

  lemma {:induction false} StoredConcat(idOf: string -> string, a: seq<string>, b: seq<string>)
    ensures StoredIds(idOf, a + b) == StoredIds(idOf, a) + StoredIds(idOf, b)
  {
    if b == [] {
      assert a + b == a;
    } else {
      var front := b[..|b| - 1];
      StoredConcat(idOf, a, front);
      assert a + b == (a + front) + [b[|b| - 1]];
      StoredSnoc(idOf, a + front, b[|b| - 1]);
    }
  }

  lemma {:induction false} StoredBatch(idOf: string -> string, batch: seq<Record>)
    requires Sound(idOf, batch)
    ensures StoredIds(idOf, Texts(batch)) == BatchIds(batch)
  {
    if batch != [] {
      var front, r := batch[..|batch| - 1], batch[|batch| - 1];
      assert r in batch;
      assert forall x :: x in front ==> x in batch;
      StoredBatch(idOf, front);
      assert Texts(batch) == Texts(front) + [r.text];
      StoredSnoc(idOf, Texts(front), r.text);
      assert BatchIds(batch) == BatchIds(front) + [r.id];
    }
  }

  // -------------------------------------------------------------------------
  // One call, write by write
  // -------------------------------------------------------------------------

  /** _heal_partial_last_line: truncation touches the file only if a partial line is there. */
  function Heal(d: Disk, now: real): Disk {
    if Split(Content(d)).tail == "" then d
    else d.(file := Some(Join(Split(Content(d)).whole)), fileTime := now)
  }

  predicate NeedsRebuild(d: Disk) {
    if d.index.NoIndex? then d.file.Some? else d.file.Some? && d.fileTime > d.indexTime + 1.0
  }

  /** The disk after the index was rebuilt and saved, if that was called for. */
  function Consult(idOf: string -> string, d: Disk, now: real): Disk {
    if NeedsRebuild(d) then d.(index := Ids(SetOf(FileIds(idOf, d))), indexTime := now) else d
  }

  /** The ids the call believes to be on file. */
  function Known(d: Disk): set<string> { if d.index.Ids? then d.index.ids else {} }

  function Ready(idOf: string -> string, d: Disk, t: Times): Disk { Consult(idOf, Heal(d, t.heal), t.rebuild) }

  function Existing(d: Disk, batch: seq<Record>): set<string> { SetOf(BatchIds(batch)) * Known(d) }

  function Grow(d: Disk, text: string, now: real): Disk { d.(file := Some(Content(d) + text), fileTime := now) }

  /** Where a call ends: at a crash after some write, or `n` bytes into the append, or normally. */
  datatype Cut = AfterHeal | AfterRebuild | AfterBytes(n: nat) | Complete

  function AppendBatch(idOf: string -> string, d: Disk, batch: seq<Record>, t: Times, cut: Cut): Disk {
    var ready := Ready(idOf, d, t);
    if batch == [] then d
    else if cut.AfterHeal? then Heal(d, t.heal)
    else if cut.AfterRebuild? || Existing(ready, batch) != {} then ready
    else
      var bytes := Join(Texts(batch));
      if cut.AfterBytes? then Grow(ready, bytes[..if cut.n < |bytes| then cut.n else |bytes|], t.append)
      else Grow(ready, bytes, t.append).(index := Ids(Known(ready) + SetOf(BatchIds(batch))), indexTime := t.save)
  }

  /** The number of records written, 0 for a full retry, an error for a partial one. */
  function Reply(idOf: string -> string, d: Disk, batch: seq<Record>, t: Times): Result<nat> {
    var existing := Existing(Ready(idOf, d, t), batch);
    if batch == [] then Ok(0)
    else if existing == {} then Ok(|batch|)
    else if |existing| == |batch| then Ok(0)
    else Err("LedgerWriteError")
  }

  class SignalFile {
    const idOf: string -> string
    var file: Option<string>
    var fileTime: real
    var index: Index
    var indexTime: real

    constructor (idOf: string -> string)
      ensures this.idOf == idOf && file == None && index == NoIndex
    {
      this.idOf := idOf;
      file, fileTime, index, indexTime := None, 0.0, NoIndex, 0.0;
    }

    function Value(): Disk
      reads this
    {
      Disk(file, fileTime, index, indexTime)
    }

    /** Look at the last byte; if it is no newline, cut after the last newline there is. */
    method HealPartialLastLine(now: real) returns (removed: nat)
      modifies this`file, this`fileTime
      ensures Value() == Heal(old(Value()), now)
      ensures removed == |Split(Content(old(Value()))).tail|
    {
      hide Split, Join;
      EndsInNewline("");
      if file.None? || file.value == "" {
        return 0;
      }
      var content := file.value;
      var keep := |content|;
      assert content[..keep] == content;
      while keep > 0 && content[keep - 1] != '\n'
        invariant keep <= |content| && Value() == old(Value())
        invariant Split(content).whole == Split(content[..keep]).whole
        invariant |Split(content).tail| == |Split(content[..keep]).tail| + (|content| - keep)
      {
        assert content[..keep] == content[..keep - 1] + [content[keep - 1]];
        SplitSnoc(content[..keep - 1], content[keep - 1]);
        keep := keep - 1;
      }
      EndsInNewline(content[..keep]);
      if keep == |content| {
        assert content[..keep] == content;
        return 0;
      }
      SplitJoins(content[..keep]);
      assert content[..keep] == Join(Split(content[..keep]).whole);
      removed := |content| - keep;
      file, fileTime := Some(content[..keep]), now;
    }

    /** _rebuild_index_from_jsonl on a healed file. */
    method RebuildIndex() returns (ids: set<string>)
      requires file.Some? ==> Split(file.value).tail == ""
      ensures ids == SetOf(FileIds(idOf, Value()))
    {
      ids := {};
      if file.None? {
        return;
      }
      var line := "";
      var content := file.value;
      for i := 0 to |content|
        invariant line == Split(content[..i]).tail
        invariant ids == SetOf(StoredIds(idOf, Split(content[..i]).whole))
      {
        assert content[..i + 1] == content[..i] + [content[i]];
        SplitSnoc(content[..i], content[i]);
        if content[i] == '\n' {
          StoredSnoc(idOf, Split(content[..i]).whole, line);
          if IdOn(idOf, line) != "" {
            ids := ids + {IdOn(idOf, line)};
          }
          line := "";
        } else {
          line := line + [content[i]];
        }
      }
      assert content[..|content|] == content;
    }

    method Append(batch: seq<Record>, t: Times) returns (r: Result<nat>)
      modifies this
      ensures Value() == AppendBatch(idOf, old(Value()), batch, t, Complete)
      ensures r == Reply(idOf, old(Value()), batch, t)
    {
      hide Split, StoredIds, FileIds, Join;
      if batch == [] {
        return Ok(0);
      }
      ghost var before := Value();
      var removed := HealPartialLastLine(t.heal);
      HealedTail(before, t.heal);
      if NeedsRebuild(Value()) {
        var ids := RebuildIndex();
        index, indexTime := Ids(ids), t.rebuild;
      }
      var known := if index.Ids? then index.ids else {};
      var existing := set id | id in BatchIds(batch) && id in known;
      assert existing == Existing(Value(), batch);
      if existing != {} {
        if |existing| == |batch| {
          return Ok(0);
        }
        return Err("LedgerWriteError");
      }
      var text := JoinLines(Texts(batch));
      var content := if file.Some? then file.value else "";
      file, fileTime := Some(content + text), t.append;
      index, indexTime := Ids(known + SetOf(BatchIds(batch))), t.save;
      r := Ok(|batch|);
    }

    method JoinLines(lines: seq<string>) returns (text: string)
      ensures text == Join(lines)
    {
      text := "";
      for i := 0 to |lines|
        invariant text == Join(lines[..i])
      {
        assert lines[..i + 1] == lines[..i] + [lines[i]];
        JoinSnoc(lines[..i], lines[i]);
        text := text + lines[i] + "\n";
      }
      assert lines[..|lines|] == lines;
    }
  }

  /** Healing keeps exactly the complete lines. */
  lemma HealedTail(d: Disk, now: real)
    ensures Split(Content(Heal(d, now))) == Lines(Split(Content(d)).whole, "")
  {
    LinesArePlain(Content(d));
    JoinSplits(Split(Content(d)).whole);
  }
}
