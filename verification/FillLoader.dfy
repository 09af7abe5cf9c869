/** load_fill_events: reads fills.jsonl, checks every record and every cross-reference. */
module FillLoader {
  import opened Sequences
  import opened Rounding
  import opened FillRecords

  /** Every line must be intact; only the last may fail to parse or carry a wrong hash, not a missing one. */
  predicate LinesOk(lines: seq<Line>) {
    forall i :: 0 <= i < |lines| ==>
      Intact(lines[i]) || (i == |lines| - 1 && (lines[i].Line? ==> lines[i].stored.Some?))
  }

  /** The files load_fill_events reads without an error. */
  ghost predicate LoaderAccepts(lines: seq<Line>) { LinesOk(lines) && Accepted(Kept(lines)) }

  /** The records the loader keeps: a last line that is not intact is dropped. */
  function Kept(lines: seq<Line>): (bodies: seq<Body>) {
    if lines == [] then []
    else
      var last := lines[|lines| - 1];
      Kept(lines[..|lines| - 1]) + if Intact(last) then [last.body] else []
  }

  /** The dictionary `events_by_order` describes the log. */
  ghost predicate Describes(events: map<string, seq<Body>>, wal: seq<Body>) {
    && (forall o :: o in events <==> Events(wal, o) != [])
    && (forall o :: o in events ==> events[o] == Events(wal, o))
  }

  method CheckRefs(fills: seq<FillRef>) returns (ok: bool)
    ensures ok <==> RefsOk(fills)
  {
    var seenOrders: set<string>, seenAttempts: set<string> := {}, {};
    for i := 0 to |fills|
      invariant RefsOk(fills[..i])
      invariant forall o :: o in seenOrders <==> exists k :: 0 <= k < i && fills[k].order == o
      invariant forall a :: a in seenAttempts <==> exists k :: 0 <= k < i && fills[k].attempt == a
    {
      if !RefComplete(fills[i]) || fills[i].order in seenOrders || fills[i].attempt in seenAttempts {
        return false;
      }
      seenOrders := seenOrders + {fills[i].order};
      seenAttempts := seenAttempts + {fills[i].attempt};
    }
    assert fills[..|fills|] == fills;
    return true;
  }

  method CheckRecord(b: Body) returns (ok: bool)
    ensures ok <==> BodyOk(b)
  {
    match b
    case Filling(_, _, _, _, _, _, _, _, _, _, _, _, _, _, _) => ok := CheckFilling(b);
    case Persisted(order, _, fillId, fillingHash, commitId, post, version) =>
      if !Readable(version) || fillingHash.None? || post.None? || fillId != MakeFillId(order) {
        return false;
      }
      ok := version == Versionless || commitId != "";
    case CommitIntent(_, _, _, _, _, post, fills, version) =>
      if !Readable(version) || post.None? || fills == [] {
        return false;
      }
      ok := CheckRefs(fills);
    case Unrecognised(_) => ok := true;
  }

  /** The checks on a filling record, in the order in which the loader makes them. */
  method CheckFilling(b: Body) returns (ok: bool)
    requires b.Filling?
    ensures ok <==> BodyOk(b)
  {
    hide Round2, Round4;
    var m := b.amounts;
    var buying := b.action == Buy || b.action == PyramidFill;
    if !Readable(b.version) || b.fillId != MakeFillId(b.order) || b.action == UnknownAction {
      return false;
    }
    if m.shares <= 0.0 || m.price <= 0.0 {
      return false;
    }
    if buying && m.cashAfter > m.cashBefore + TOLERANCE {
      return false;
    }
    if b.action == Sell && m.cashAfter < m.cashBefore - TOLERANCE {
      return false;
    }
    var expectedCash := Round2(m.cashBefore + m.netCash);
    if Abs(m.cashAfter - expectedCash) > TOLERANCE {
      return false;
    }
    if b.intended != b.actual || b.pricedAt != Some(SessionOpen(b.intended)) {
      return false;
    }
    if m.totalCost < m.commission - COST_TOLERANCE {
      return false;
    }
    var expectedGross := Round2(Worth(m.shares, m.price));
    if Abs(m.grossValue - expectedGross) > TOLERANCE {
      return false;
    }
    var expectedTotal := Round4(m.commission + m.slippage);
    if Abs(m.totalCost - expectedTotal) > COST_TOLERANCE {
      return false;
    }
    var expectedNet := if buying then Round2(-(m.grossValue + m.totalCost)) else Round2(m.grossValue - m.totalCost);
    if Abs(m.netCash - expectedNet) > TOLERANCE {
      return false;
    }
    ok := b.source != NextSessionOpen || (m.slippageBps == 0 && m.slippage == 0.0);
  }

  lemma NothingRead()
    ensures Describes(map[], []) && Intents([]) == []
  {
  }

  /** First pass: line hashes and single-record checks, grouping the records as it goes. */
  method ReadRecords(lines: seq<Line>)
    returns (ok: bool, events: map<string, seq<Body>>, intents: seq<Body>)
    ensures ok <==> LinesOk(lines) && forall b :: b in Kept(lines) ==> BodyOk(b)
    ensures ok ==> Describes(events, Kept(lines)) && intents == Intents(Kept(lines))
  {
    hide BodyOk, Describes, Intents;
    events, intents := map[], [];
    NothingRead();
    ghost var wal := [];
    for i := 0 to |lines|
      invariant wal == Kept(lines[..i])
      invariant forall k :: 0 <= k < i ==>
                  Intact(lines[k]) || (k == |lines| - 1 && (lines[k].Line? ==> lines[k].stored.Some?))
      invariant forall b :: b in wal ==> BodyOk(b)
      invariant Describes(events, wal)
      invariant intents == Intents(wal)
    {
      var line := lines[i];
      KeptSnoc(lines, i);
      if line.Garbled? {
        if i < |lines| - 1 {
          return false, events, intents;
        }
      } else if line.stored.None? {
        return false, events, intents;
      } else if line.stored != Some(Sha256(line.body)) {
        if i < |lines| - 1 {
          return false, events, intents;
        }
      } else {
        var fine := CheckRecord(line.body);
        if !fine {
          KeptContains(lines, i);
          return false, events, intents;
        }
        events, intents := AddRecord(events, intents, line.body, wal);
        wal := wal + [line.body];
      }
    }
    assert lines[..|lines|] == lines;
    return true, events, intents;
  }

  /** Files one record under its order, or among the commit intents. */
  method AddRecord(events: map<string, seq<Body>>, intents: seq<Body>, b: Body, ghost wal: seq<Body>)
    returns (events': map<string, seq<Body>>, intents': seq<Body>)
    requires Describes(events, wal) && intents == Intents(wal)
    ensures Describes(events', wal + [b]) && intents' == Intents(wal + [b])
  {
    hide Intents, Events;
    events', intents' := events, intents;
    GroupingGrows(wal, b);
    if b.CommitIntent? {
      intents' := intents + [b];
    } else if b.order != "" {
      var sofar := if b.order in events then events[b.order] else [];
      events' := events[b.order := sofar + [b]];
    }
  }

  lemma KeptSnoc(lines: seq<Line>, i: nat)
    requires i < |lines|
    ensures Kept(lines[..i + 1]) ==
      Kept(lines[..i]) + if Intact(lines[i]) then [lines[i].body] else []
  {
    assert lines[..i + 1][..i] == lines[..i];
  }

  lemma {:induction false} KeptContains(lines: seq<Line>, i: nat)
    requires i < |lines| && Intact(lines[i])
    ensures lines[i].body in Kept(lines)
  {
    var n := |lines| - 1;
    if i < n {
      KeptContains(lines[..n], i);
    }
  }

  /** Duplicate fill_attempt_id with different content. */
  method CheckAttempts(wal: seq<Body>) returns (ok: bool)
    ensures ok <==> forall i, j :: 0 <= i < j < |wal| ==> NoTwins(wal[i], wal[j])
  {
    var owner: map<string, Body> := map[];
    for i := 0 to |wal|
      invariant forall j, k :: 0 <= j < k < i ==> NoTwins(wal[j], wal[k])
      invariant forall k :: 0 <= k < i && wal[k].Filling? && wal[k].order != "" && wal[k].attempt != ""
                  ==> wal[k].attempt in owner && owner[wal[k].attempt] == wal[k]
      invariant forall a :: a in owner ==>
                  a != "" && exists k :: 0 <= k < i && wal[k] == owner[a] && wal[k].Filling?
                                         && wal[k].order != "" && wal[k].attempt == a
    {
      var b := wal[i];
      if b.Filling? && b.order != "" && b.attempt != "" {
        if b.attempt in owner && Sha256(owner[b.attempt]) != Sha256(b) {
          ghost var k :| 0 <= k < i && wal[k] == owner[b.attempt];
          assert !NoTwins(wal[k], wal[i]);
          return false;
        }
        owner := owner[b.attempt := b];
      }
    }
    return true;
  }

  /** Several persisted markers of one order must repeat the first one. */
  method CheckMarkers(wal: seq<Body>) returns (ok: bool)
    ensures ok <==> forall i, j :: 0 <= i < j < |wal| ==> MarkersAgree(wal[i], wal[j])
  {
    var first: map<string, Body> := map[];
    for i := 0 to |wal|
      invariant forall j, k :: 0 <= j < k < i ==> MarkersAgree(wal[j], wal[k])
      invariant forall k :: 0 <= k < i && wal[k].Persisted? && wal[k].order != ""
                  ==> wal[k].order in first && MarkersAgree(first[wal[k].order], wal[k])
      invariant forall o :: o in first ==>
                  o != "" && first[o].Persisted? && first[o].order == o
                  && exists k :: 0 <= k < i && wal[k] == first[o]
    {
      var b := wal[i];
      if b.Persisted? && b.order != "" {
        if b.order !in first {
          first := first[b.order := b];
        } else if !MarkersAgree(first[b.order], b) {
          ghost var k :| 0 <= k < i && wal[k] == first[b.order];
          assert !MarkersAgree(wal[k], wal[i]);
          return false;
        }
      }
    }
    return true;
  }

  method CheckCommitIds(wal: seq<Body>) returns (ok: bool)
    ensures ok <==> forall i, j :: 0 <= i < j < |wal| ==> CommitIdsDiffer(wal[i], wal[j])
  {
    var seen: set<string> := {};
    for i := 0 to |wal|
      invariant forall j, k :: 0 <= j < k < i ==> CommitIdsDiffer(wal[j], wal[k])
      invariant forall c :: c in seen <==>
                  exists k :: 0 <= k < i && wal[k].CommitIntent? && wal[k].commitId == c
    {
      if wal[i].CommitIntent? {
        if wal[i].commitId in seen {
          ghost var k :| 0 <= k < i && wal[k].CommitIntent? && wal[k].commitId == wal[i].commitId;
          assert !CommitIdsDiffer(wal[k], wal[i]);
          return false;
        }
        seen := seen + {wal[i].commitId};
      }
    }
    return true;
  }

  ghost predicate IntentResolves(wal: seq<Body>, ci: Body)
    requires ci.CommitIntent?
  {
    forall i :: 0 <= i < |ci.fills| ==> RefResolves(wal, ci, ci.fills[i])
  }

  /** Each reference of each commit intent must name exactly one matching filling record. */
  method CheckReferences(wal: seq<Body>, intents: seq<Body>) returns (ok: bool)
    requires forall ci :: ci in intents ==> ci.CommitIntent?
    ensures ok <==> forall ci :: ci in intents ==> IntentResolves(wal, ci)
  {
    for i := 0 to |intents|
      invariant forall k :: 0 <= k < i ==> IntentResolves(wal, intents[k])
    {
      var ci := intents[i];
      for j := 0 to |ci.fills|
        invariant forall k :: 0 <= k < j ==> RefResolves(wal, ci, ci.fills[k])
      {
        if !RefResolves(wal, ci, ci.fills[j]) {
          assert ci in intents && !IntentResolves(wal, ci);
          return false;
        }
      }
      assert IntentResolves(wal, ci);
    }
    return true;
  }

  /** _repair_fills_last_line: only a last line that does not parse is cut off. */
  function Repaired(lines: seq<Line>): seq<Line> {
    if lines != [] && lines[|lines| - 1].Garbled? then lines[..|lines| - 1] else lines
  }

  /**
   * Succeeds exactly on files whose lines are intact and whose records are accepted, and then returns
   * each order's records and all commit intents, in the order they were written. `left` is the file as
   * it is left behind.
   */
  method LoadFillEvents(lines: seq<Line>)
    returns (ok: bool, events: map<string, seq<Body>>, intents: seq<Body>, left: seq<Line>)
    ensures ok <==> LoaderAccepts(lines)
    ensures ok ==> Describes(events, Kept(lines)) && intents == Intents(Kept(lines))
    ensures left == if ok then Repaired(lines) else lines
  {
    left := lines;
    ok, events, intents := ReadRecords(lines);
    if !ok {
      return;
    }
    var wal := Kept(lines);
    IntentMembers(wal);
    var attempts := CheckAttempts(wal);
    var markers := CheckMarkers(wal);
    var ids := CheckCommitIds(wal);
    var references := CheckReferences(wal, intents);
    ok := attempts && markers && ids && references;
    assert references <==>
      forall ci, r :: ci in wal && ci.CommitIntent? && r in ci.fills ==> RefResolves(wal, ci, r);
    if ok && lines != [] && lines[|lines| - 1].Garbled? {
      left := lines[..|lines| - 1];
    }
  }

  // -------------------------------------------------------------------------
  // A file that is loaded, repaired and appended to
  // -------------------------------------------------------------------------

  lemma KeptAppend(lines: seq<Line>, line: Line)
    ensures Kept(lines + [line]) == Kept(lines) + if Intact(line) then [line.body] else []
  {
    assert (lines + [line])[..|lines|] == lines;
  }

  /** The repair keeps the file readable and every record in it. */
  lemma RepairKeepsRecords(lines: seq<Line>)
    requires LoaderAccepts(lines)
    ensures Kept(Repaired(lines)) == Kept(lines) && LoaderAccepts(Repaired(lines))
  {
    hide Accepted;
    if Repaired(lines) != lines {
      var front, last := lines[..|lines| - 1], lines[|lines| - 1];
      assert lines == front + [last];
      KeptAppend(front, last);
      assert forall i :: 0 <= i < |front| ==> front[i] == lines[i];
    }
  }

  /** After loading, the last line is gone or good. */
  predicate Mended(lines: seq<Line>) {
    lines == [] || lines[|lines| - 1].Garbled? || Intact(lines[|lines| - 1])
  }

  /**
   * A record appended after a load is read back exactly if the log with it is accepted and the last line
   * had not been a parsable record with a wrong hash: that line is skipped by the load but not repaired,
   * and as soon as anything follows it the file is refused.
   */
  lemma AppendAfterLoadIff(lines: seq<Line>, b: Body)
    requires LoaderAccepts(lines)
    ensures LoaderAccepts(Repaired(lines) + [Stamp(b)]) <==> Mended(lines) && Accepted(Kept(lines) + [b])
  {
    hide Accepted;
    RepairKeepsRecords(lines);
    var left := Repaired(lines);
    var longer := left + [Stamp(b)];
    KeptAppend(left, Stamp(b));
    if !Mended(lines) {
      assert longer[|left| - 1] == lines[|lines| - 1] && !Intact(longer[|left| - 1]);
    } else {
      assert forall i :: 0 <= i < |left| ==> longer[i] == left[i] == lines[i];
    }
  }

  /**
   * A file of one record under the hash of another loads, as an empty log, and is left as it is; after that
   * no record can be appended to it.
   */
  lemma WrongHashBlocksAppends(a: Body, b: Body, next: Body)
    requires a != b
    ensures var lines := [Line(a, Some(Sha256(b)))];
            && LoaderAccepts(lines) && Kept(lines) == [] && Repaired(lines) == lines && !Mended(lines)
            && !LoaderAccepts(Repaired(lines) + [Stamp(next)])
  {
    hide Accepted;
    var lines := [Line(a, Some(Sha256(b)))];
    assert lines == [] + [lines[0]];
    KeptAppend([], lines[0]);
    EmptyAccepted();
    AppendAfterLoadIff(lines, next);
  }

  lemma EmptyAccepted()
    ensures Accepted([])
  {
  }

  /**
   * A file of one line loads exactly if the line does not parse, has a wrong hash, or holds an acceptable
   * record under its own hash; a missing hash is never forgiven.
   */
  lemma OneLineFile(line: Line)
    ensures LoaderAccepts([line]) <==>
      || line.Garbled?
      || (line.stored.Some? && (line.stored == Some(Sha256(line.body)) ==> Accepted([line.body])))
    ensures Kept([line]) == if line.Line? && line.stored == Some(Sha256(line.body)) then [line.body] else []
  {
    hide Accepted;
    assert [line] == [] + [line];
    KeptAppend([], line);
    EmptyAccepted();
    assert forall b: Body :: [] + [b] == [b];
  }

  lemma {:induction false} IntactIsKept(lines: seq<Line>, line: Line)
    requires line in lines && Intact(line)
    ensures line.body in Kept(lines)
  {
    var front, last := lines[..|lines| - 1], lines[|lines| - 1];
    assert lines == front + [last];
    KeptAppend(front, last);
    if line != last {
      IntactIsKept(front, line);
    }
  }

  /** One filling whose amounts are refused makes the file unreadable, whatever is appended later. */
  lemma RefusedEventBlocksLog(lines: seq<Line>, filling: Body, more: seq<Line>)
    requires Stamp(filling) in lines && !Priced(filling)
    ensures !LoaderAccepts(lines + more)
  {
    IntactIsKept(lines + more, Stamp(filling));
  }
}
