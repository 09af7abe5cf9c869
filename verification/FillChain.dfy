/** The two resolvers of a fill: from its persisted marker, and from a commit intent. */
module FillChain {
  import opened Sequences
  import opened FillRecords

  datatype Chain = Chain(filling: Body, marker: Body, intent: Option<Body>)

  datatype Named = Named(ref: FillRef, filling: Body)

  function IntentNamed(commitId: string): Body -> bool {
    (b: Body) => b.CommitIntent? && b.commitId == commitId
  }

  function RefNaming(order: string, attempt: string): FillRef -> bool {
    (r: FillRef) => r.order == order && r.attempt == attempt
  }

  /**
   * resolve_fill: follow marker → filling → commit intent. With `strict`, all three links must
   * carry the current record version. `expected` restricts the commit intent.
   */
  function ResolveFill(order: string, events: seq<Body>, intents: seq<Body>,
                       expected: Option<string>, strict: bool): (r: Result<Chain>)
    ensures r.Ok? ==> r.value.filling.Filling? && r.value.marker.Persisted?
                      && (r.value.intent.Some? ==> r.value.intent.value.CommitIntent?)
  {
    var markers := Markers(events);
    if markers == [] then Err("no persisted marker") else
    var marker := markers[0];
    if marker.attempt == "" then Err("marker lacks fill_attempt_id") else
    var fillings := Fillings(events, marker.attempt);
    if fillings == [] then Err("orphaned marker") else
    var filling := fillings[0];
    if marker.fillingHash.Some? && marker.fillingHash != Some(Sha256(filling)) then Err("hash mismatch") else
    if strict && (filling.version != CURRENT_VERSION || marker.version != CURRENT_VERSION) then
      Err("record version")
    else if marker.commitId == "" then Ok(Chain(filling, marker, None)) else
    var found := Filter(intents, IntentNamed(marker.commitId));
    if found == [] then Err("unknown commit intent") else
    var ci := found[0];
    if strict && ci.version != CURRENT_VERSION then Err("intent version") else
    if marker.post.Some? && ci.post != marker.post then Err("portfolio hash mismatch") else
    if Filter(ci.fills, RefNaming(order, marker.attempt)) == [] then Err("intent lacks the fill") else
    if expected.Some? && ci.commitId != expected.value then Err("another commit intent") else
    Ok(Chain(filling, marker, Some(ci)))
  }

  /** _resolve_ci_filling_strict: the filling a commit intent names for an order. */
  function ResolveFromIntent(order: string, events: seq<Body>, ci: Body, version: Version): (r: Result<Named>)
    requires ci.CommitIntent?
    ensures r.Ok? ==> r.value.filling.Filling?
  {
    var refs := Filter(ci.fills, RefOf(order));
    if |refs| != 1 then Err("not exactly one fill_ref") else
    var ref := refs[0];
    var fillings := Fillings(events, ref.attempt);
    if |fillings| != 1 then Err("not exactly one filling") else
    var filling := fillings[0];
    if ref.hash.Some? && ref.hash != Some(Sha256(filling)) then Err("content hash mismatch") else
    if filling.version != version then Err("record version") else
    Ok(Named(ref, filling))
  }

  /** Asking for a particular commit intent only ever turns success into failure. */
  lemma ExpectedOnlyRestricts(order: string, events: seq<Body>, intents: seq<Body>, commitId: string)
    requires ResolveFill(order, events, intents, Some(commitId), true).Ok?
    ensures ResolveFill(order, events, intents, None, true)
            == ResolveFill(order, events, intents, Some(commitId), true)
  {
  }

  /** A resolved chain names a filling record of the order, by the attempt of its first marker. */
  lemma ChainIsRecorded(wal: seq<Body>, order: string, expected: Option<string>, strict: bool)
    requires ResolveFill(order, Events(wal, order), Intents(wal), expected, strict).Ok?
    ensures var chain := ResolveFill(order, Events(wal, order), Intents(wal), expected, strict).value;
            && chain.filling in wal && chain.filling.order == order
            && Markers(Events(wal, order)) != [] && chain.marker == Markers(Events(wal, order))[0]
            && chain.filling.attempt == chain.marker.attempt
  {
    var attempt := Markers(Events(wal, order))[0].attempt;
    var f := Fillings(Events(wal, order), attempt)[0];
    FilterMembers(Events(wal, order), FillingOf(attempt));
    EventMembers(wal, order);
    assert f in Fillings(Events(wal, order), attempt);
  }

  /** In a coherent log a commit id leads to its commit intent. */
  lemma IntentLookup(wal: seq<Body>, ci: Body)
    requires Coherent(wal) && ci in wal && ci.CommitIntent?
    ensures Filter(Intents(wal), IntentNamed(ci.commitId)) == [ci]
  {
    var named, intents := IntentNamed(ci.commitId), Intents(wal);
    IntentMembers(wal);
    FilterMembers(intents, named);
    forall k, l | 0 <= k < l < |intents|
      ensures !named(intents[k]) || !named(intents[l])
    {
      var i, j := FilterOrder(wal, IsIntent(), k, l);
      assert CommitIdsDiffer(wal[i], wal[j]);
    }
    FilterAtMostOne(intents, named);
    assert ci in Filter(intents, named);
  }

  /** In a coherent log a reference of a commit intent is the only one for its order. */
  lemma RefLookup(wal: seq<Body>, ci: Body, ref: FillRef)
    requires Coherent(wal) && ci in wal && ci.CommitIntent? && ref in ci.fills
    ensures Filter(ci.fills, RefOf(ref.order)) == [ref]
    ensures ref.order != "" && ref.attempt != "" && RefResolves(wal, ci, ref)
  {
    assert BodyShaped(ci);
    FilterMembers(ci.fills, RefOf(ref.order));
    forall i, j | 0 <= i < j < |ci.fills|
      ensures !(RefOf(ref.order)(ci.fills[i]) && RefOf(ref.order)(ci.fills[j]))
    {
      assert ci.fills[i].order != ci.fills[j].order;
    }
    FilterAtMostOne(ci.fills, RefOf(ref.order));
    assert ref in Filter(ci.fills, RefOf(ref.order));
  }

  /**
   * Resolver agreement: whenever the marker chain of an order resolves strictly to a commit
   * intent, that commit intent resolves for the order too, to the same filling.
   */
  lemma ResolversAgree(wal: seq<Body>, order: string, expected: Option<string>)
    requires Coherent(wal)
    requires ResolveFill(order, Events(wal, order), Intents(wal), expected, true).Ok?
    ensures
      var chain := ResolveFill(order, Events(wal, order), Intents(wal), expected, true).value;
      && chain.intent.Some? && chain.intent.value in wal
      && var named := ResolveFromIntent(order, Events(wal, order), chain.intent.value, CURRENT_VERSION);
      && named.Ok?
      && named.value.filling == chain.filling
      && named.value.ref.attempt == chain.marker.attempt
  {
    hide Coherent;
    var chain := ResolveFill(order, Events(wal, order), Intents(wal), expected, true).value;
    FirstMarkerOk(wal, order);
    FirstNamedIntent(wal, chain.marker.commitId);
    var ci := chain.intent.value;
    var ref := Filter(ci.fills, RefNaming(order, chain.marker.attempt))[0];
    FilterMembers(ci.fills, RefNaming(order, chain.marker.attempt));
    assert ref in Filter(ci.fills, RefNaming(order, chain.marker.attempt));
    RefLookup(wal, ci, ref);
  }

  lemma FirstMarkerOk(wal: seq<Body>, order: string)
    requires Coherent(wal) && Markers(Events(wal, order)) != []
    ensures PersistedOk(Markers(Events(wal, order))[0])
  {
    EventMembers(wal, order);
    FilterMembers(Events(wal, order), IsPersisted());
    var marker := Markers(Events(wal, order))[0];
    assert marker in Markers(Events(wal, order)) && BodyShaped(marker);
  }

  lemma FirstNamedIntent(wal: seq<Body>, commitId: string)
    ensures var found := Filter(Intents(wal), IntentNamed(commitId));
            found != [] ==> found[0] in wal && found[0].CommitIntent?
  {
    var found := Filter(Intents(wal), IntentNamed(commitId));
    FilterMembers(Intents(wal), IntentNamed(commitId));
    IntentMembers(wal);
    assert found == [] || found[0] in found;
  }

  /** What a strict resolution for commit intent `ci` amounts to, link by link. */
  ghost predicate LinksMatch(order: string, events: seq<Body>, ci: Body)
    requires ci.CommitIntent?
  {
    var named := ResolveFromIntent(order, events, ci, CURRENT_VERSION);
    && Markers(events) != [] && named.Ok? && ci.version == CURRENT_VERSION
    && var marker := Markers(events)[0];
    && marker.version == CURRENT_VERSION && marker.commitId == ci.commitId
    && marker.attempt == named.value.ref.attempt
    && marker.fillingHash == Some(Sha256(named.value.filling)) && marker.post == ci.post
  }

  /** The strict marker chain leads to `ci` exactly when every link matches. */
  lemma StrictChainIff(wal: seq<Body>, order: string, ci: Body)
    requires Coherent(wal) && ci in wal && ci.CommitIntent?
    ensures ResolveFill(order, Events(wal, order), Intents(wal), Some(ci.commitId), true).Ok?
            <==> LinksMatch(order, Events(wal, order), ci)
  {
    var events := Events(wal, order);
    var expected := Some(ci.commitId);
    if ResolveFill(order, events, Intents(wal), expected, true).Ok? {
      ResolversAgree(wal, order, expected);
      FirstMarkerOk(wal, order);
      var chain := ResolveFill(order, events, Intents(wal), expected, true).value;
      IntentLookup(wal, chain.intent.value);
      IntentLookup(wal, ci);
      assert chain.intent.value == ci;
    }
    if LinksMatch(order, events, ci) {
      LinksSuffice(wal, order, ci);
    }
  }

  lemma LinksSuffice(wal: seq<Body>, order: string, ci: Body)
    requires Coherent(wal) && ci in wal && ci.CommitIntent? && LinksMatch(order, Events(wal, order), ci)
    ensures ResolveFill(order, Events(wal, order), Intents(wal), Some(ci.commitId), true).Ok?
  {
    var ref := ResolveFromIntent(order, Events(wal, order), ci, CURRENT_VERSION).value.ref;
    FirstMarkerOk(wal, order);
    IntentLookup(wal, ci);
    FilterMembers(ci.fills, RefOf(order));
    FilterMembers(ci.fills, RefNaming(order, ref.attempt));
    assert ref in Filter(ci.fills, RefOf(order));
    assert ref in Filter(ci.fills, RefNaming(order, ref.attempt));
    RefLookup(wal, ci, ref);
  }
}
