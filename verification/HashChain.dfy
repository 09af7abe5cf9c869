/** The hash-chained events of the observation ledger, and the verification of the chains. */
module HashChain {
  import opened Sequences

  type Hash = int

  /** An observation key is the SHA-256 of these three, taken as injective. */
  datatype Key = Key(model: string, config: string, session: string)

  datatype Kind =
    | ObservationCreated | Collecting
    | Completed | FailedData | FailedValidation | Cancelled | Conflict
    | OtherKind

  /** A record without its event_hash; `prev` is previous_event_hash. */
  datatype Body = Body(key: Key, kind: Kind, content: Option<string>, detail: string, prev: Option<Hash>)

  datatype Event = Event(body: Body, hash: Hash)

  function OfKey(key: Key): Event -> bool { (e: Event) => e.body.key == key }

  function KeyEvents(es: seq<Event>, key: Key): seq<Event> { Filter(es, OfKey(key)) }

  /** _last_event_hash. */
  function LastHash(chain: seq<Event>): Option<Hash> {
    if chain == [] then None else Some(chain[|chain| - 1].hash)
  }

  /** Every event of one key names the hash of the event before it. */
  ghost predicate Linked(chain: seq<Event>) {
    forall i :: 0 <= i < |chain| ==> chain[i].body.prev == LastHash(chain[..i])
  }

  ghost predicate ChainsVerify(es: seq<Event>) {
    forall key :: Linked(KeyEvents(es, key))
  }

  ghost predicate HashesMatch(h: Body -> Hash, es: seq<Event>) {
    forall e :: e in es ==> e.hash == h(e.body)
  }

  ghost predicate Injective(h: Body -> Hash) {
    forall a, b :: h(a) == h(b) ==> a == b
  }

  lemma LinkedSnoc(chain: seq<Event>, e: Event)
    ensures Linked(chain + [e]) <==> Linked(chain) && e.body.prev == LastHash(chain)
  {
    var longer := chain + [e];
    assert longer[..|chain|] == chain;
    assert forall i :: 0 <= i < |chain| ==> longer[..i] == chain[..i] && longer[i] == chain[i];
  }

  /** Group the events by key, then follow each chain. */
  method VerifyHashChains(es: seq<Event>) returns (ok: bool)
    ensures ok <==> ChainsVerify(es)
  {
    hide Linked, KeyEvents;
    var byKey := GroupByKey(es);
    var todo := byKey.Keys;
    while todo != {}
      invariant todo <= byKey.Keys
      invariant forall key :: key in byKey && key !in todo ==> Linked(byKey[key])
    {
      var key :| key in todo;
      var linked := FollowChain(byKey[key]);
      if !linked {
        return false;
      }
      todo := todo - {key};
    }
    forall key
      ensures Linked(KeyEvents(es, key))
    {
      EmptyLinked();
    }
    ok := true;
  }

  lemma EmptyLinked()
    ensures Linked([])
  {
  }

  method GroupByKey(es: seq<Event>) returns (byKey: map<Key, seq<Event>>)
    ensures forall key :: KeyEvents(es, key) == if key in byKey then byKey[key] else []
  {
    byKey := map[];
    for i := 0 to |es|
      invariant forall key :: KeyEvents(es[..i], key) == if key in byKey then byKey[key] else []
    {
      var e := es[i];
      assert es[..i + 1] == es[..i] + [e];
      forall key
        ensures KeyEvents(es[..i + 1], key) == KeyEvents(es[..i], key) + if e.body.key == key then [e] else []
      {
        FilterSnoc(es[..i], e, OfKey(key));
      }
      var chain := if e.body.key in byKey then byKey[e.body.key] else [];
      byKey := byKey[e.body.key := chain + [e]];
    }
    assert es[..|es|] == es;
  }

  method FollowChain(chain: seq<Event>) returns (ok: bool)
    ensures ok <==> Linked(chain)
  {
    var prev: Option<Hash> := None;
    for i := 0 to |chain|
      invariant Linked(chain[..i]) && prev == LastHash(chain[..i])
    {
      assert chain[..i + 1] == chain[..i] + [chain[i]];
      LinkedSnoc(chain[..i], chain[i]);
      if chain[i].body.prev != prev {
        return false;
      }
      prev := Some(chain[i].hash);
    }
    assert chain[..|chain|] == chain;
    ok := true;
  }

  /** The hash a new event of `key` has to name: that of the latest event of the key, if any. */
  function HeadOf(es: seq<Event>, key: Key): Option<Hash> {
    if es == [] then None
    else if es[|es| - 1].body.key == key then Some(es[|es| - 1].hash)
    else HeadOf(es[..|es| - 1], key)
  }

  lemma {:induction false} HeadIsLast(es: seq<Event>, key: Key)
    ensures HeadOf(es, key) == LastHash(KeyEvents(es, key))
  {
    if es != [] {
      HeadIsLast(es[..|es| - 1], key);
    }
  }

  /** Verifying one more event: whatever other keys interleave, only its own key's head matters. */
  lemma AppendVerifies(es: seq<Event>, e: Event)
    ensures ChainsVerify(es + [e]) <==> ChainsVerify(es) && e.body.prev == HeadOf(es, e.body.key)
  {
    hide Linked;
    forall key
      ensures Linked(KeyEvents(es + [e], key)) <==>
              Linked(KeyEvents(es, key)) && (e.body.key == key ==> e.body.prev == HeadOf(es, key))
    {
      FilterSnoc(es, e, OfKey(key));
      HeadIsLast(es, key);
      LinkedSnoc(KeyEvents(es, key), e);
    }
    assert Linked(KeyEvents(es + [e], e.body.key)) <==>
           Linked(KeyEvents(es, e.body.key)) && e.body.prev == HeadOf(es, e.body.key);
  }

  lemma EmptyVerifies()
    ensures ChainsVerify([])
  {
    assert forall key :: KeyEvents([], key) == [];
  }

  /** Chain verification, event by event over the file. */
  lemma {:induction false} VerifiesPointwise(es: seq<Event>)
    ensures ChainsVerify(es) <==>
            forall i :: 0 <= i < |es| ==> es[i].body.prev == HeadOf(es[..i], es[i].body.key)
  {
    hide ChainsVerify, HeadOf;
    if es == [] {
      EmptyVerifies();
    } else {
      var n := |es| - 1;
      var front := es[..n];
      VerifiesPointwise(front);
      assert es == front + [es[n]];
      AppendVerifies(front, es[n]);
      assert forall i :: 0 <= i < n ==> front[..i] == es[..i] && front[i] == es[i];
    }
  }

  lemma LastEventsAgree(h: Body -> Hash, a: seq<Event>, b: seq<Event>)
    requires Injective(h) && HashesMatch(h, a) && HashesMatch(h, b) && Linked(a) && Linked(b)
    requires a != [] && LastHash(a) == LastHash(b)
    ensures b != [] && a[|a| - 1] == b[|b| - 1]
    ensures Linked(a[..|a| - 1]) && Linked(b[..|b| - 1])
    ensures LastHash(a[..|a| - 1]) == LastHash(b[..|b| - 1])
  {
    hide Linked;
    var x, y := a[|a| - 1], b[|b| - 1];
    SameHashSameEvent(h, x, y);
    LastIsLinked(a);
    LastIsLinked(b);
  }

  lemma SameHashSameEvent(h: Body -> Hash, x: Event, y: Event)
    requires Injective(h) && x.hash == h(x.body) && y.hash == h(y.body) && x.hash == y.hash
    ensures x == y
  {
  }

  lemma LastIsLinked(a: seq<Event>)
    requires a != [] && Linked(a)
    ensures Linked(a[..|a| - 1]) && a[|a| - 1].body.prev == LastHash(a[..|a| - 1])
  {
    hide Linked;
    LinkedSnoc(a[..|a| - 1], a[|a| - 1]);
    assert a == a[..|a| - 1] + [a[|a| - 1]];
  }

  /** With an injective hash the head of a verified chain determines the whole chain. */
  lemma {:induction false} HeadDeterminesHistory(h: Body -> Hash, a: seq<Event>, b: seq<Event>)
    requires Injective(h) && HashesMatch(h, a) && HashesMatch(h, b) && Linked(a) && Linked(b)
    requires LastHash(a) == LastHash(b)
    ensures a == b
  {
    if a != [] {
      var a', b' := a[..|a| - 1], b[..|b| - 1];
      LastEventsAgree(h, a, b);
      HeadDeterminesHistory(h, a', b');
      assert a == a' + [a[|a| - 1]] && b == b' + [b[|b| - 1]];
    }
  }

  /** Two verified files with the same head for every key hold the same history of every key. */
  lemma HeadsDetermineFile(h: Body -> Hash, es: seq<Event>, fs: seq<Event>, key: Key)
    requires Injective(h) && HashesMatch(h, es) && HashesMatch(h, fs) && ChainsVerify(es) && ChainsVerify(fs)
    requires HeadOf(es, key) == HeadOf(fs, key)
    ensures KeyEvents(es, key) == KeyEvents(fs, key)
  {
    HeadIsLast(es, key);
    HeadIsLast(fs, key);
    FilterMembers(es, OfKey(key));
    FilterMembers(fs, OfKey(key));
    HeadDeterminesHistory(h, KeyEvents(es, key), KeyEvents(fs, key));
  }
}
