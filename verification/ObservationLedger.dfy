/** The partitioned observation ledger: one file a month, and an index that is only a cache. */
module ObservationLedger {
  import opened Sequences
  import opened HashChain

  type Month = string

  /** The month of the intended session, `session[:7]`: the key determines its partition. */
  function MonthOf(key: Key): Month {
    if |key.session| < 7 then key.session else key.session[..7]
  }

  /** Two observations share a file exactly if their sessions fall into one month. */
  lemma SamePartition(a: Key, b: Key)
    requires |a.session| >= 7 && |b.session| >= 7
    ensures MonthOf(a) == MonthOf(b) <==> forall i :: 0 <= i < 7 ==> a.session[i] == b.session[i]
    ensures |MonthOf(a)| == 7 && MonthOf(a) <= a.session
  {
    if MonthOf(a) == MonthOf(b) {
      assert forall i :: 0 <= i < 7 ==> a.session[i] == MonthOf(a)[i] && b.session[i] == MonthOf(b)[i];
    }
  }

  /** An index entry whose value is not a YYYY-MM string is malformed. */
  datatype Entry = Malformed | At(month: Month)

  datatype IndexFile = NoIndex | Unparseable | Parsed(entries: map<Key, Entry>)

  type Partitions = map<Month, seq<Event>>

  datatype Located = Located(month: Month, events: seq<Event>)

  // -------------------------------------------------------------------------
  // What a full scan answers
  // -------------------------------------------------------------------------

  function EventsIn(ps: Partitions, m: Month): seq<Event> { if m in ps then ps[m] else [] }

  /** _read_events_raw accepts the file. */
  ghost predicate Readable(h: Body -> Hash, es: seq<Event>) { HashesMatch(h, es) && ChainsVerify(es) }

  ghost predicate AllReadable(h: Body -> Hash, ps: Partitions) { forall m :: m in ps ==> Readable(h, ps[m]) }

  ghost predicate Holds(ps: Partitions, m: Month, key: Key) { m in ps && KeyEvents(ps[m], key) != [] }

  ghost predicate Elsewhere(ps: Partitions, m: Month, key: Key) { exists n :: n != m && Holds(ps, n, key) }

  /** The authoritative answer: the one partition that holds the key, if any. */
  ghost function Scan(h: Body -> Hash, ps: Partitions, key: Key): Result<Option<Located>> {
    if !AllReadable(h, ps) then Err("CorruptionError")
    else if m :| Holds(ps, m, key) then
      if Elsewhere(ps, m, key) then Err("CorruptionError") else Ok(Some(Located(m, KeyEvents(ps[m], key))))
    else Ok(None)
  }

  lemma ScanFinds(h: Body -> Hash, ps: Partitions, m: Month, key: Key)
    requires AllReadable(h, ps) && Holds(ps, m, key)
    ensures Scan(h, ps, key) ==
            if Elsewhere(ps, m, key) then Err("CorruptionError") else Ok(Some(Located(m, KeyEvents(ps[m], key))))
  {
    hide AllReadable, Holds, KeyEvents;
    if !Elsewhere(ps, m, key) {
      assert forall n :: Holds(ps, n, key) ==> n == m;
      assert forall n :: n == m ==> !Elsewhere(ps, n, key);
    } else {
      forall k | Holds(ps, k, key)
        ensures Elsewhere(ps, k, key)
      {
        if k != m {
          assert Holds(ps, m, key);
        }
      }
    }
  }

  /** Position `i` of month `m` opens an observation of `key`. */
  predicate CreatedAt(ps: Partitions, m: Month, i: int, key: Key) {
    m in ps && 0 <= i < |ps[m]| && ps[m][i].body.kind == ObservationCreated && ps[m][i].body.key == key
  }

  /** Some key was opened twice, in one partition or in two. */
  ghost predicate CreatedTwice(ps: Partitions) {
    exists key, m, i, n, j :: CreatedAt(ps, m, i, key) && CreatedAt(ps, n, j, key) && (m != n || i != j)
  }

  /** The index a rebuild produces: where each key was opened. */
  ghost predicate Indexes(ps: Partitions, idx: map<Key, Entry>) {
    && (forall key :: key in idx ==> exists m, i :: CreatedAt(ps, m, i, key))
    && (forall key, m, i :: CreatedAt(ps, m, i, key) ==> key in idx && idx[key] == At(m))
  }

  /** What resolving a key answers, whatever the index file holds. */
  ghost function Resolve(h: Body -> Hash, ps: Partitions, index: IndexFile, key: Key): Result<Option<Located>> {
    if !index.Parsed? && CreatedTwice(ps) then Err("CorruptionError") else Scan(h, ps, key)
  }

  /**
   * The index never changes the answer of a full scan exactly when it parses, or no key was opened
   * twice, or some file is unreadable anyway: a rebuild fails for every key if one key is duplicated.
   */
  lemma IndexTransparentIff(h: Body -> Hash, ps: Partitions, index: IndexFile)
    ensures (forall key :: Resolve(h, ps, index, key) == Scan(h, ps, key)) <==>
            index.Parsed? || !CreatedTwice(ps) || !AllReadable(h, ps)
  {
    hide CreatedTwice, AllReadable;
    if !index.Parsed? && CreatedTwice(ps) && AllReadable(h, ps) {
      var key := UnknownKey(ps);
      assert Scan(h, ps, key) == Ok(None);
      assert Resolve(h, ps, index, key) != Scan(h, ps, key);
    }
  }

  const TWICE := Key("v2", "c0ffee", "2026-01-05")

  /** A file that opens one observation twice, each event properly chained and hashed. */
  function OpenedTwice(h: Body -> Hash): seq<Event> {
    var first := NewEvent(h, TWICE, ObservationCreated, Some("a"), "", None);
    [first, NewEvent(h, TWICE, ObservationCreated, Some("b"), "", Some(first.hash))]
  }

  /**
   * The index changes the answer: every file verifies and a full scan finds the observation, but with the
   * index missing or unparseable the same question fails; and so does the question for any other key.
   */
  lemma LostIndexFailsEveryKey(h: Body -> Hash, index: IndexFile, other: Key)
    requires !index.Parsed? && other != TWICE
    ensures var ps: Partitions := map["2026-01" := OpenedTwice(h)];
            && AllReadable(h, ps) && CreatedTwice(ps)
            && Scan(h, ps, TWICE) == Ok(Some(Located("2026-01", OpenedTwice(h))))
            && Resolve(h, ps, index, TWICE) == Err("CorruptionError")
            && Scan(h, ps, other) == Ok(None) && Resolve(h, ps, index, other) == Err("CorruptionError")
  {
    hide Scan, ChainsVerify;
    var es := OpenedTwice(h);
    var ps: Partitions := map["2026-01" := es];
    OpenedTwiceVerifies(h);
    assert CreatedAt(ps, "2026-01", 0, TWICE) && CreatedAt(ps, "2026-01", 1, TWICE);
    assert Holds(ps, "2026-01", TWICE);
    ScanFinds(h, ps, "2026-01", TWICE);
    FilterNone(es, OfKey(other));
    ScanMisses(h, ps, other);
  }

  lemma OpenedTwiceVerifies(h: Body -> Hash)
    ensures Readable(h, OpenedTwice(h)) && KeyEvents(OpenedTwice(h), TWICE) == OpenedTwice(h)
  {
    var es := OpenedTwice(h);
    assert es == [] + [es[0]] + [es[1]];
    EmptyVerifies();
    AppendVerifies([], es[0]);
    AppendVerifies([] + [es[0]], es[1]);
    FilterSnoc([], es[0], OfKey(TWICE));
    FilterSnoc([] + [es[0]], es[1], OfKey(TWICE));
  }

  lemma ScanMisses(h: Body -> Hash, ps: Partitions, key: Key)
    requires AllReadable(h, ps) && forall m :: m in ps ==> KeyEvents(ps[m], key) == []
    ensures Scan(h, ps, key) == Ok(None)
  {
  }

  lemma UnknownKey(ps: Partitions) returns (key: Key)
    ensures forall m :: !Holds(ps, m, key)
  {
    var known := set m, e | m in ps && e in ps[m] :: e.body.key;
    key := KeyOutside(known);
    forall m | m in ps
      ensures KeyEvents(ps[m], key) == []
    {
      FilterNone(ps[m], OfKey(key));
    }
  }

  lemma KeyOutside(keys: set<Key>) returns (key: Key)
    ensures key !in keys
  {
    var n := LongestModel(keys);
    key := Key(seq(n, _ => 'x'), "", "");
  }

  lemma {:induction false} LongestModel(keys: set<Key>) returns (n: nat)
    ensures forall k :: k in keys ==> |k.model| < n
  {
    if keys == {} {
      n := 0;
    } else {
      var k :| k in keys;
      var m := LongestModel(keys - {k});
      n := m + |k.model| + 1;
    }
  }

  /** A key present in two partitions is always rejected. */
  lemma DuplicateRejected(h: Body -> Hash, ps: Partitions, index: IndexFile, key: Key, m: Month, n: Month)
    requires Holds(ps, m, key) && Holds(ps, n, key) && m != n
    ensures Resolve(h, ps, index, key) == Err("CorruptionError")
  {
    if AllReadable(h, ps) {
      ScanFinds(h, ps, m, key);
    }
  }

  // -------------------------------------------------------------------------
  // Status
  // -------------------------------------------------------------------------

  /** The kind of the latest event that has a status; CREATED when there is none. */
  function StatusOf(es: seq<Event>): Kind {
    if es == [] then ObservationCreated
    else if es[|es| - 1].body.kind != OtherKind then es[|es| - 1].body.kind
    else StatusOf(es[..|es| - 1])
  }

  method DeriveStatus(es: seq<Event>) returns (r: Result<Kind>)
    ensures r == if es == [] then Err("ValueError") else Ok(StatusOf(es))
  {
    if es == [] {
      return Err("ValueError");
    }
    var current := ObservationCreated;
    for i := 0 to |es|
      invariant current == StatusOf(es[..i])
    {
      assert es[..i + 1][..i] == es[..i];
      if es[i].body.kind != OtherKind {
        current := es[i].body.kind;
      }
    }
    assert es[..|es|] == es;
    r := Ok(current);
  }

  /** _TRANSITIONS. */
  predicate Allowed(from: Kind, to: Kind) {
    match from
    case ObservationCreated => to == Collecting || to == Conflict
    case Collecting => to == Completed || to == FailedData || to == FailedValidation || to == Cancelled
    case _ => false
  }

  // -------------------------------------------------------------------------
  // What the two writers decide
  // -------------------------------------------------------------------------

  function NewEvent(h: Body -> Hash, key: Key, kind: Kind, content: Option<string>, detail: string,
                    prev: Option<Hash>): Event
  {
    var body := Body(key, kind, content, detail, prev);
    Event(body, h(body))
  }

  datatype Ruling =
    | Open(event: Event)   // the key is new
    | Match                // same content again
    | Clash(event: Event)  // different content while CREATED: a CONFLICT event, then ConflictError
    | Refuse               // different content later: ConflictError, nothing written
    | Advance(event: Event)
    | Missing | Forbidden | Corrupt

  function Written(r: Ruling): seq<Event> {
    if r.Open? || r.Clash? || r.Advance? then [r.event] else []
  }

  ghost function RuleCreate(h: Body -> Hash, ps: Partitions, key: Key, content: string, detail: string): Ruling {
    var es := KeyEvents(EventsIn(ps, MonthOf(key)), key);
    if !AllReadable(h, ps) || Elsewhere(ps, MonthOf(key), key) then Corrupt
    else if es == [] then Open(NewEvent(h, key, ObservationCreated, Some(content), detail, None))
    else if es[0].body.content == Some(content) then Match
    else if StatusOf(es) != ObservationCreated then Refuse
    else Clash(NewEvent(h, key, Conflict, None, detail, LastHash(es)))
  }

  ghost function RuleTransition(h: Body -> Hash, ps: Partitions, m: Month, key: Key, kind: Kind, detail: string): Ruling {
    var es := KeyEvents(EventsIn(ps, m), key);
    if !Readable(h, EventsIn(ps, m)) then Corrupt
    else if es == [] then Missing
    else if !Allowed(StatusOf(es), kind) then Forbidden
    else Advance(NewEvent(h, key, kind, None, detail, LastHash(es)))
  }

  // -------------------------------------------------------------------------
  // The ledger directory
  // -------------------------------------------------------------------------

  datatype Created = Opened(event: Event) | Matched | ConflictError | CorruptionError

  datatype Moved = Moved(event: Event) | KeyError | InvalidTransition | Corruption

  class Ledger {
    const h: Body -> Hash
    var partitions: Partitions
    var index: IndexFile

    constructor (h: Body -> Hash)
      ensures this.h == h && partitions == map[] && index == NoIndex
    {
      this.h := h;
      partitions := map[];
      index := NoIndex;
    }

    /** _read_events_raw: the events of one month, or CorruptionError. */
    method ReadEvents(m: Month) returns (r: Result<seq<Event>>)
      ensures r.Ok? <==> Readable(h, EventsIn(partitions, m))
      ensures r.Ok? ==> r.value == EventsIn(partitions, m)
    {
      var es := EventsIn(partitions, m);
      for i := 0 to |es|
        invariant HashesMatch(h, es[..i])
      {
        if es[i].hash != h(es[i].body) {
          assert es[i] in es;
          return Err("CorruptionError");
        }
      }
      assert es[..|es|] == es;
      var ok := VerifyHashChains(es);
      r := if ok then Ok(es) else Err("CorruptionError");
    }

    method FindEventsForKey(es: seq<Event>, key: Key) returns (found: seq<Event>)
      ensures found == KeyEvents(es, key)
    {
      found := [];
      for i := 0 to |es|
        invariant found == KeyEvents(es[..i], key)
      {
        assert es[..i + 1] == es[..i] + [es[i]];
        FilterSnoc(es[..i], es[i], OfKey(key));
        if es[i].body.key == key {
          found := found + [es[i]];
        }
      }
      assert es[..|es|] == es;
    }

    /** _find_key_in_jsonl: the full scan. */
    method FindKey(key: Key) returns (r: Result<Option<Month>>)
      ensures r.Ok? <==> Scan(h, partitions, key).Ok?
      ensures r.Ok? ==> (r.value.None? <==> Scan(h, partitions, key).value.None?)
      ensures r.Ok? && r.value.Some? ==>
                && Holds(partitions, r.value.value, key)
                && Scan(h, partitions, key).value.value == Located(r.value.value, KeyEvents(partitions[r.value.value], key))
    {
      hide Readable, KeyEvents;
      var foundIn: set<Month> := {};
      var todo := partitions.Keys;
      while todo != {}
        invariant todo <= partitions.Keys
        invariant forall m :: m in partitions && m !in todo ==> Readable(h, partitions[m])
        invariant forall m :: m in foundIn <==> m !in todo && Holds(partitions, m, key)
      {
        var m :| m in todo;
        var read := ReadEvents(m);
        if read.Err? {
          return Err("CorruptionError");
        }
        var mine := FindEventsForKey(read.value, key);
        if mine != [] {
          foundIn := foundIn + {m};
        }
        todo := todo - {m};
      }
      if foundIn == {} {
        return Ok(None);
      }
      var m :| m in foundIn;
      ScanFinds(h, partitions, m, key);
      if foundIn - {m} != {} {
        var n :| n in foundIn - {m};
        assert Holds(partitions, n, key);
        return Err("CorruptionError");
      }
      r := Ok(Some(m));
    }

    /** _check_no_other_partitions: raises exactly if another month is unreadable or holds the key. */
    method CheckNoOther(key: Key, known: Month) returns (clear: bool)
      ensures clear <==> !Elsewhere(partitions, known, key)
                         && forall m :: m in partitions && m != known ==> Readable(h, partitions[m])
    {
      hide Readable, KeyEvents;
      var todo := partitions.Keys - {known};
      while todo != {}
        invariant todo <= partitions.Keys - {known}
        invariant forall m :: m in partitions && m != known && m !in todo ==>
                    Readable(h, partitions[m]) && !Holds(partitions, m, key)
      {
        var m :| m in todo;
        var read := ReadEvents(m);
        if read.Err? {
          return false;
        }
        var mine := FindEventsForKey(read.value, key);
        if mine != [] {
          assert Holds(partitions, m, key);
          return false;
        }
        todo := todo - {m};
      }
      clear := true;
    }

    /** _rebuild_idx fails exactly on an unreadable file or on any key opened twice. */
    method RebuildIndex() returns (r: Result<map<Key, Entry>>)
      ensures r.Ok? <==> AllReadable(h, partitions) && !CreatedTwice(partitions)
      ensures r.Ok? ==> Indexes(partitions, r.value)
    {
      hide Readable, Collected, CreatedTwice, Indexes, CreatedAt;
      var idx: map<Key, Entry> := map[];
      NothingCollected(partitions);
      ghost var done: set<Month> := {};
      var todo := partitions.Keys;
      while todo != {}
        invariant todo <= partitions.Keys && done == partitions.Keys - todo
        invariant forall m :: m in done ==> Readable(h, partitions[m])
        invariant Collected(partitions, done, "", 0, idx)
      {
        var m :| m in todo;
        var read := ReadEvents(m);
        if read.Err? {
          return Err("CorruptionError");
        }
        var es := read.value;
        StartMonth(partitions, done, m, idx);
        for i := 0 to |es|
          invariant Collected(partitions, done, m, i, idx)
        {
          if es[i].body.kind == ObservationCreated {
            if es[i].body.key in idx {
              SecondCreation(partitions, done, m, i, idx);
              return Err("CorruptionError");
            }
            FirstCreation(partitions, done, m, i, idx);
            idx := idx[es[i].body.key := At(m)];
          } else {
            NoCreation(partitions, done, m, i, idx);
          }
        }
        FinishMonth(partitions, done, m, idx);
        todo := todo - {m};
        done := done + {m};
      }
      assert done == partitions.Keys;
      AllCollected(partitions, idx);
      r := Ok(idx);
    }

    /** _load_idx_or_rebuild. */
    method LoadIndexOrRebuild() returns (r: Result<map<Key, Entry>>)
      ensures index.Parsed? ==> r == Ok(index.entries)
      ensures !index.Parsed? ==> (r.Ok? <==> AllReadable(h, partitions) && !CreatedTwice(partitions))
    {
      match index {
        case Parsed(entries) =>
          r := Ok(entries);
        case Unparseable =>
          r := RebuildIndex();
        case NoIndex =>
          if partitions != map[] {
            r := RebuildIndex();
          } else {
            r := Ok(map[]);
          }
      }
    }

    /** _update_idx_locked: never replaces an unparseable index by the new entry alone. */
    method UpdateIndex(key: Key, m: Month) returns (ok: bool)
      modifies this`index
      ensures ok <==> (old(index).Unparseable? ==> AllReadable(h, partitions) && !CreatedTwice(partitions))
      ensures !ok ==> index == old(index)
      ensures ok ==> index.Parsed? && key in index.entries && index.entries[key] == At(m)
      ensures ok && old(index).Parsed? ==> index.entries == old(index).entries[key := At(m)]
      ensures ok && old(index).NoIndex? ==> index.entries == map[key := At(m)]
      ensures ok && old(index).Unparseable? ==>
                exists idx :: Indexes(partitions, idx) && index.entries == idx[key := At(m)]
    {
      var idx: map<Key, Entry>;
      match index {
        case Parsed(entries) =>
          idx := entries;
        case NoIndex =>
          idx := map[];
        case Unparseable =>
          var rebuilt := RebuildIndex();
          if rebuilt.Err? {
            return false;
          }
          idx := rebuilt.value;
      }
      index := Parsed(idx[key := At(m)]);
      ok := true;
    }

    /**
     * Index transparency: whatever the index file holds, resolving a key answers what a full scan
     * answers, except that a missing or unparseable index makes it fail when any key was opened twice.
     */
    method ResolvePartition(key: Key) returns (r: Result<Option<Located>>)
      modifies this`index
      ensures r == Resolve(h, partitions, old(index), key)
      ensures index == old(index)
              || (r.Ok? && r.value.Some? && index.Parsed? && key in index.entries
                  && index.entries[key] == At(r.value.value.month))
    {
      hide Readable, KeyEvents, Scan, CreatedTwice;
      var loaded := LoadIndexOrRebuild();
      if loaded.Err? {
        ScanNeedsReadable(h, partitions, key);
        return Err("CorruptionError");
      }
      var cached := if key in loaded.value then loaded.value[key] else Malformed;
      if cached.At? {
        var read := ReadEvents(cached.month);
        MonthLookup(h, partitions, cached.month, key);
        if read.Err? {
          ScanNeedsReadable(h, partitions, key);
          return Err("CorruptionError");
        }
        var mine := FindEventsForKey(read.value, key);
        if mine != [] {
          assert Holds(partitions, cached.month, key);
          var clear := CheckNoOther(key, cached.month);
          ScanNeedsReadable(h, partitions, key);
          if clear {
            ScanFinds(h, partitions, cached.month, key);
            return Ok(Some(Located(cached.month, mine)));
          }
          if AllReadable(h, partitions) {
            ScanFinds(h, partitions, cached.month, key);
          }
          return Err("CorruptionError");
        }
      }
      var found := FindKey(key);
      ScanError(h, partitions, key);
      if found.Err? {
        return Err("CorruptionError");
      }
      if found.value.None? {
        return Ok(None);
      }
      var m := found.value.value;
      ScanNeedsReadable(h, partitions, key);
      if cached != At(m) {
        var ok := UpdateIndex(key, m);
        if !ok {
          return Err("CorruptionError");
        }
      }
      var read := ReadEvents(m);
      if read.Err? {
        return Err("CorruptionError");
      }
      var mine := FindEventsForKey(read.value, key);
      r := Ok(Some(Located(m, mine)));
    }

    /**
     * create_observation after input validation. The index is updated after the write; if that fails
     * the event is already on file. It fails exactly if the index did not parse and some key was opened twice.
     */
    method CreateObservation(key: Key, content: string, detail: string) returns (r: Created)
      modifies this
      ensures var m := MonthOf(key);
        var ruling := RuleCreate(h, old(partitions), key, content, detail);
        && partitions == (if Written(ruling) == [] then old(partitions)
                          else old(partitions)[m := EventsIn(old(partitions), m) + Written(ruling)])
        && (ruling.Corrupt? ==> r == CorruptionError)
        && (ruling.Refuse? || ruling.Clash? ==> r == ConflictError)
        && (ruling.Open? || ruling.Match? ==>
              r == if old(index).Unparseable? && CreatedTwice(old(partitions)) then CorruptionError
                   else if ruling.Open? then Opened(ruling.event) else Matched)
        && (r.Opened? || r.Matched? ==> index.Parsed? && key in index.entries && index.entries[key] == At(m))
        && (!r.Opened? && !r.Matched? ==> index == old(index))
    {
      hide Readable, KeyEvents, CreatedTwice, Elsewhere;
      var m := MonthOf(key);
      var clear := CheckNoOther(key, m);
      if !clear {
        return CorruptionError;
      }
      var read := ReadEvents(m);
      MonthLookup(h, partitions, m, key);
      if read.Err? {
        return CorruptionError;
      }
      var mine := FindEventsForKey(read.value, key);
      r := Matched;
      if mine != [] {
        var prior := mine[0].body.content;
        var status := DeriveStatus(mine);
        if prior != Some(content) {
          if status.value != ObservationCreated {
            return ConflictError;
          }
          var clash := NewEvent(h, key, Conflict, None, detail, LastHash(mine));
          partitions := partitions[m := read.value + [clash]];
          return ConflictError;
        }
      } else {
        var event := NewEvent(h, key, ObservationCreated, Some(content), detail, None);
        OpeningKeepsFiles(h, partitions, key, event);
        partitions := partitions[m := read.value + [event]];
        r := Opened(event);
      }
      var ok := UpdateIndex(key, m);
      if !ok {
        r := CorruptionError;
      }
    }

    /** transition_observation, the locked section included. */
    method TransitionObservation(key: Key, kind: Kind, detail: string) returns (r: Moved)
      modifies this
      ensures match Resolve(h, old(partitions), old(index), key)
                case Err(_) => r == Corruption && partitions == old(partitions)
                case Ok(None) => r == KeyError && partitions == old(partitions)
                case Ok(Some(at)) =>
                  var ruling := RuleTransition(h, old(partitions), at.month, key, kind, detail);
                  && partitions == (if Written(ruling) == [] then old(partitions)
                                    else old(partitions)[at.month := EventsIn(old(partitions), at.month) + Written(ruling)])
                  && r == (match ruling
                           case Advance(event) => Moved(event)
                           case Forbidden => InvalidTransition
                           case Missing => KeyError
                           case _ => Corruption)
    {
      hide Readable, KeyEvents, Scan, CreatedTwice;
      var found := ResolvePartition(key);
      if found.Err? {
        return Corruption;
      }
      if found.value.None? {
        return KeyError;
      }
      var m := found.value.value.month;
      var read := ReadEvents(m);
      if read.Err? {
        return Corruption;
      }
      var mine := FindEventsForKey(read.value, key);
      if mine == [] {
        return KeyError;
      }
      var status := DeriveStatus(mine);
      if !Allowed(status.value, kind) {
        return InvalidTransition;
      }
      var event := NewEvent(h, key, kind, None, detail, LastHash(mine));
      partitions := partitions[m := read.value + [event]];
      r := Moved(event);
    }
  }

  // -------------------------------------------------------------------------
  // Lemmas behind the loops
  // -------------------------------------------------------------------------

  /** A month without a file reads as empty. */
  /** Opening a key that no file holds keeps every file readable, and no key is opened twice by it. */
  lemma OpeningKeepsFiles(h: Body -> Hash, ps: Partitions, key: Key, e: Event)
    requires AllReadable(h, ps) && !Elsewhere(ps, MonthOf(key), key) && KeyEvents(EventsIn(ps, MonthOf(key)), key) == []
    requires e.hash == h(e.body) && e.body.prev == None && e.body.key == key
    ensures var ps' := ps[MonthOf(key) := EventsIn(ps, MonthOf(key)) + [e]];
            AllReadable(h, ps') && (CreatedTwice(ps') <==> CreatedTwice(ps))
  {
    hide ChainsVerify, KeyEvents;
    var m := MonthOf(key);
    var es := EventsIn(ps, m);
    EmptyVerifies();
    AppendVerifies(es, e);
    HeadIsLast(es, key);
    CreationsKept(ps, m, e);
    NotYetCreated(ps, key);
  }

  /** Appending adds at most one place where a key is opened: the new one. */
  lemma CreationsKept(ps: Partitions, m: Month, e: Event)
    ensures var ps' := ps[m := EventsIn(ps, m) + [e]];
            forall n, i, key :: CreatedAt(ps', n, i, key) ==>
              CreatedAt(ps, n, i, key) || (n == m && i == |EventsIn(ps, m)| && key == e.body.key)
    ensures var ps' := ps[m := EventsIn(ps, m) + [e]];
            forall n, i, key :: CreatedAt(ps, n, i, key) ==> CreatedAt(ps', n, i, key)
  {
  }

  lemma NotYetCreated(ps: Partitions, key: Key)
    requires !Elsewhere(ps, MonthOf(key), key) && KeyEvents(EventsIn(ps, MonthOf(key)), key) == []
    ensures forall m, i :: !CreatedAt(ps, m, i, key)
  {
    forall m, i | CreatedAt(ps, m, i, key)
      ensures Holds(ps, m, key)
    {
      FilterMembers(ps[m], OfKey(key));
      assert ps[m][i] in KeyEvents(ps[m], key);
    }
  }

  lemma MonthLookup(h: Body -> Hash, ps: Partitions, m: Month, key: Key)
    ensures !Readable(h, EventsIn(ps, m)) ==> m in ps && !AllReadable(h, ps)
    ensures KeyEvents(EventsIn(ps, m), key) != [] ==> Holds(ps, m, key)
    ensures Readable(h, EventsIn(ps, m)) && (forall n :: n in ps && n != m ==> Readable(h, ps[n])) ==> AllReadable(h, ps)
  {
    EmptyLinked();
    assert forall k :: KeyEvents([], k) == [];
  }

  lemma ScanNeedsReadable(h: Body -> Hash, ps: Partitions, key: Key)
    ensures !AllReadable(h, ps) ==> Scan(h, ps, key) == Err("CorruptionError")
    ensures Scan(h, ps, key).Ok? ==> AllReadable(h, ps)
  {
  }

  lemma ScanError(h: Body -> Hash, ps: Partitions, key: Key)
    ensures Scan(h, ps, key).Err? ==> Scan(h, ps, key) == Err("CorruptionError")
    ensures Scan(h, ps, key).Ok? && Scan(h, ps, key).value.None? ==> Scan(h, ps, key) == Ok(None)
  {
  }

  /** The rebuild has been through the months `done` and the first `n` events of month `m`. */
  predicate Visited(done: set<Month>, m: Month, n: int, k: Month, i: int) {
    k in done || (k == m && i < n)
  }

  ghost predicate Collected(ps: Partitions, done: set<Month>, m: Month, n: int, idx: map<Key, Entry>) {
    && (forall key :: key in idx ==>
          exists k, i :: Visited(done, m, n, k, i) && CreatedAt(ps, k, i, key))
    && (forall key, k, i :: Visited(done, m, n, k, i) && CreatedAt(ps, k, i, key) ==> key in idx && idx[key] == At(k))
    && (forall key, k, i, l, j ::
          Visited(done, m, n, k, i) && Visited(done, m, n, l, j) && CreatedAt(ps, k, i, key) && CreatedAt(ps, l, j, key) ==>
            k == l && i == j)
  }

  lemma NothingCollected(ps: Partitions)
    ensures Collected(ps, {}, "", 0, map[])
  {
  }

  lemma StartMonth(ps: Partitions, done: set<Month>, m: Month, idx: map<Key, Entry>)
    requires Collected(ps, done, "", 0, idx)
    ensures Collected(ps, done, m, 0, idx)
  {
    Regroup(ps, done, "", 0, done, m, 0, idx);
  }

  lemma FinishMonth(ps: Partitions, done: set<Month>, m: Month, idx: map<Key, Entry>)
    requires m in ps && Collected(ps, done, m, |ps[m]|, idx)
    ensures Collected(ps, done + {m}, "", 0, idx)
  {
    Regroup(ps, done, m, |ps[m]|, done + {m}, "", 0, idx);
  }

  lemma Regroup(ps: Partitions, done: set<Month>, m: Month, n: int, done': set<Month>, m': Month, n': int,
                idx: map<Key, Entry>)
    requires Collected(ps, done, m, n, idx)
    requires forall key, k, i :: CreatedAt(ps, k, i, key) ==> (Visited(done, m, n, k, i) <==> Visited(done', m', n', k, i))
    ensures Collected(ps, done', m', n', idx)
  {
    hide CreatedAt, Visited;
    forall key | key in idx
      ensures exists k, i :: Visited(done', m', n', k, i) && CreatedAt(ps, k, i, key)
    {
      var k, i :| Visited(done, m, n, k, i) && CreatedAt(ps, k, i, key);
      assert Visited(done', m', n', k, i);
    }
  }

  lemma NoCreation(ps: Partitions, done: set<Month>, m: Month, n: nat, idx: map<Key, Entry>)
    requires Collected(ps, done, m, n, idx) && m in ps && n < |ps[m]| && ps[m][n].body.kind != ObservationCreated
    ensures Collected(ps, done, m, n + 1, idx)
  {
    Regroup(ps, done, m, n, done, m, n + 1, idx);
  }

  lemma FirstCreation(ps: Partitions, done: set<Month>, m: Month, n: nat, idx: map<Key, Entry>)
    requires Collected(ps, done, m, n, idx) && m in ps && m !in done && n < |ps[m]|
    requires ps[m][n].body.kind == ObservationCreated && ps[m][n].body.key !in idx
    ensures Collected(ps, done, m, n + 1, idx[ps[m][n].body.key := At(m)])
  {
    var mine := ps[m][n].body.key;
    assert CreatedAt(ps, m, n, mine) && Visited(done, m, n + 1, m, n);
    forall key | key in idx
      ensures exists k, i :: Visited(done, m, n + 1, k, i) && CreatedAt(ps, k, i, key)
    {
      var k, i :| Visited(done, m, n, k, i) && CreatedAt(ps, k, i, key);
      assert Visited(done, m, n + 1, k, i);
    }
    forall key, k, i | Visited(done, m, n + 1, k, i) && CreatedAt(ps, k, i, key)
      ensures key == mine ==> k == m && i == n
      ensures key != mine ==> key in idx && idx[key] == At(k) && Visited(done, m, n, k, i)
    {
      if key == mine && !(k == m && i == n) {
        assert false;
      }
    }
  }

  lemma SecondCreation(ps: Partitions, done: set<Month>, m: Month, n: nat, idx: map<Key, Entry>)
    requires Collected(ps, done, m, n, idx) && m in ps && m !in done && n < |ps[m]|
    requires ps[m][n].body.kind == ObservationCreated && ps[m][n].body.key in idx
    ensures CreatedTwice(ps)
  {
    var key := ps[m][n].body.key;
    var k, i :| Visited(done, m, n, k, i) && CreatedAt(ps, k, i, key);
    assert CreatedAt(ps, m, n, key);
  }

  lemma AllCollected(ps: Partitions, idx: map<Key, Entry>)
    requires Collected(ps, ps.Keys, "", 0, idx)
    ensures !CreatedTwice(ps) && Indexes(ps, idx)
  {
    assert forall key, k, i :: CreatedAt(ps, k, i, key) ==> Visited(ps.Keys, "", 0, k, i);
  }
}
