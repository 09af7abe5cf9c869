/** What it means that the loader accepts a log, record by record and across records. */
module FillRules {
  import opened Sequences
  import opened Rounding
  import opened FillRecords
  import opened FillChain

  // -------------------------------------------------------------------------
  // The money in one filling
  // -------------------------------------------------------------------------

  lemma RoundedWithin(x: real, y: real, slack: real)
    requires Abs(x - Round2(y)) <= slack
    ensures Abs(x - y) <= slack + 0.005
  {
    hide Round2;
    RoundError(y);
  }

  /**
   * The checks on an accepted filling chain up: cash moved by shares times price plus costs on a buy or
   * pyramid fill, and minus costs on a sale, to within eight cents; and costs are commission and slippage,
   * which is zero at an opening price.
   */
  lemma AcceptedCashMoves(b: Body)
    requires b.Filling? && BodyOk(b)
    ensures var m := b.amounts;
      var moved, costs := m.cashAfter - m.cashBefore, m.commission + m.slippage;
      && m.shares > 0.0 && m.price > 0.0
      && (b.action == Sell ==> -0.08 <= moved - (m.shares * m.price - costs) <= 0.08 && moved >= -0.02)
      && (b.action != Sell ==> -0.08 <= moved + (m.shares * m.price + costs) <= 0.08 && moved <= 0.02)
      && -0.0011 <= m.totalCost - costs <= 0.0011 && m.totalCost >= m.commission - 0.001
      && (b.source == NextSessionOpen ==> m.slippage == 0.0 && m.slippageBps == 0)
  {
    hide Worth, BodyOk;
    CashMoves(b);
    WorthIs(b.amounts.shares, b.amounts.price);
  }

  lemma CashMoves(b: Body)
    requires b.Filling? && BodyOk(b)
    ensures var m := b.amounts;
      var moved, costs, worth := m.cashAfter - m.cashBefore, m.commission + m.slippage, Worth(m.shares, m.price);
      && m.shares > 0.0 && m.price > 0.0
      && (b.action == Sell ==> -0.08 <= moved - (worth - costs) <= 0.08 && moved >= -0.02)
      && (b.action != Sell ==> -0.08 <= moved + (worth + costs) <= 0.08 && moved <= 0.02)
      && -0.0011 <= m.totalCost - costs <= 0.0011 && m.totalCost >= m.commission - 0.001
      && (b.source == NextSessionOpen ==> m.slippage == 0.0 && m.slippageBps == 0)
  {
    hide Round2, Round4, Worth;
    var m := b.amounts;
    var worth := Worth(m.shares, m.price);
    assert b.action == Sell || IsBuying(b.action);
    RoundedWithin(m.cashAfter, m.cashBefore + m.netCash, 0.02);
    RoundedWithin(m.grossValue, worth, 0.02);
    RoundError(m.commission + m.slippage);
    RoundedWithin(m.netCash, if b.action == Sell then m.grossValue - m.totalCost else -(m.grossValue + m.totalCost), 0.02);
  }

  lemma WorthIs(shares: real, price: real)
    ensures Worth(shares, price) == shares * price
  {
  }

  // -------------------------------------------------------------------------
  // The records
  // -------------------------------------------------------------------------

  /** An accepted record names its own order and session, and every link that other records rely on. */
  lemma AcceptedRecord(wal: seq<Body>, b: Body)
    requires Accepted(wal) && b in wal
    ensures b.Unrecognised? || b.version == Versionless || b.version == IntVersion(2)
    ensures b.Filling? ==>
      && b.fillId == "fill-" + b.order && b.intended == b.actual && b.pricedAt == Some(SessionOpen(b.intended))
      && (b.action == Buy || b.action == Sell || b.action == PyramidFill)
    ensures b.Persisted? ==>
      b.fillId == "fill-" + b.order && b.fillingHash.Some? && b.post.Some? && (b.version == IntVersion(2) ==> b.commitId != "")
    ensures b.CommitIntent? ==>
      && b.post.Some? && |b.fills| >= 1
      && (forall r :: r in b.fills ==> r.order != "" && r.attempt != "" && r.hash.Some?)
      && (forall i, j :: 0 <= i < j < |b.fills| ==>
            b.fills[i].order != b.fills[j].order && b.fills[i].attempt != b.fills[j].attempt)
  {
    assert BodyOk(b);
  }

  /** Every reference of an accepted commit intent names one filling of the log, by content and portfolio. */
  lemma AcceptedReference(wal: seq<Body>, ci: Body, r: FillRef) returns (f: Body)
    requires Accepted(wal) && ci in wal && ci.CommitIntent? && r in ci.fills
    ensures f in wal && f.Filling? && f.order == r.order && f.attempt == r.attempt && r.hash == Some(Sha256(f))
    ensures f.strategy == ci.strategy && f.portfolioId == ci.portfolioId && f.portfolioVersion == ci.portfolioVersion
    ensures forall g :: g in wal && g.Filling? && g.order == r.order && g.attempt == r.attempt ==> g == f
  {
    RefLookup(wal, ci, r);
    var found := Fillings(Events(wal, r.order), r.attempt);
    f := found[0];
    EventMembers(wal, r.order);
    FilterMembers(Events(wal, r.order), FillingOf(r.attempt));
    assert f in found;
    assert found == [f];
  }

  /** Across records: attempts, commit ids and the markers of an order contradict nothing. */
  lemma AcceptedTogether(wal: seq<Body>, i: nat, j: nat)
    requires Accepted(wal) && i < j < |wal|
    ensures var a, b := wal[i], wal[j];
      && (a.Filling? && b.Filling? && a.order != "" && b.order != "" && a.attempt == b.attempt != "" ==> a == b)
      && (a.CommitIntent? && b.CommitIntent? ==> a.commitId != b.commitId)
      && (a.Persisted? && b.Persisted? && a.order == b.order != "" ==>
            a.attempt == b.attempt && a.commitId == b.commitId && a.post == b.post && a.fillingHash == b.fillingHash)
  {
    assert NoTwins(wal[i], wal[j]) && CommitIdsDiffer(wal[i], wal[j]) && MarkersAgree(wal[i], wal[j]);
  }

  /** A marker may be written again: the log stays accepted. */
  lemma RepeatedMarkerAccepted(wal: seq<Body>, marker: Body)
    requires Accepted(wal) && marker in wal && marker.Persisted?
    ensures Accepted(wal + [marker])
  {
    var longer := wal + [marker];
    var k :| 0 <= k < |wal| && wal[k] == marker;
    forall i | 0 <= i < |wal|
      ensures NoTwins(wal[i], marker) && MarkersAgree(wal[i], marker) && CommitIdsDiffer(wal[i], marker)
    {
      if i < k {
        assert MarkersAgree(wal[i], wal[k]);
      } else if k < i {
        assert MarkersAgree(wal[k], wal[i]);
      }
    }
    forall ci, r | ci in longer && ci.CommitIntent? && r in ci.fills
      ensures RefResolves(longer, ci, r)
    {
      assert RefResolves(wal, ci, r);
      FilterSnoc(wal, marker, AboutOrder(r.order));
      FilterSnoc(Events(wal, r.order), marker, FillingOf(r.attempt));
    }
    assert forall b :: b in longer ==> b in wal;
  }

  // -------------------------------------------------------------------------
  // When one more record is accepted
  // -------------------------------------------------------------------------

  lemma PrefixAccepted(wal: seq<Body>, b: Body)
    requires Accepted(wal + [b])
    ensures BodyOk(b)
    ensures forall i :: 0 <= i < |wal| ==> NoTwins(wal[i], b) && MarkersAgree(wal[i], b) && CommitIdsDiffer(wal[i], b)
    ensures b.CommitIntent? ==> forall r :: r in b.fills ==> RefResolves(wal + [b], b, r)
  {
    var longer := wal + [b];
    assert b in longer && longer[|wal|] == b;
    forall i | 0 <= i < |wal|
      ensures NoTwins(wal[i], b) && MarkersAgree(wal[i], b) && CommitIdsDiffer(wal[i], b)
    {
      assert longer[i] == wal[i];
    }
  }

  /** An appended record that is neither a filling nor clashes with another leaves an accepted log accepted. */
  lemma AppendedAccepted(wal: seq<Body>, b: Body)
    requires Accepted(wal) && !b.Filling? && BodyOk(b)
    requires forall i :: 0 <= i < |wal| ==> MarkersAgree(wal[i], b) && CommitIdsDiffer(wal[i], b)
    requires b.CommitIntent? ==> forall r :: r in b.fills ==> RefResolves(wal, b, r)
    ensures Accepted(wal + [b])
  {
    var longer := wal + [b];
    forall ci, r | ci in longer && ci.CommitIntent? && r in ci.fills
      ensures RefResolves(longer, ci, r)
    {
      assert RefResolves(wal, ci, r);
      SameReference(wal, b, ci, r);
    }
    assert forall c :: c in longer <==> c in wal || c == b;
  }

  lemma SameReference(wal: seq<Body>, b: Body, ci: Body, r: FillRef)
    requires !b.Filling? && ci.CommitIntent?
    ensures RefResolves(wal + [b], ci, r) <==> RefResolves(wal, ci, r)
  {
    FilterSnoc(wal, b, AboutOrder(r.order));
    FilterSnoc(Events(wal, r.order), b, FillingOf(r.attempt));
  }

  /**
   * A marker appended to an accepted log is accepted exactly if it has version 2 or none, names its own fill id,
   * a hash and a post state, of version 2 also a commit intent, and repeats every other marker of its order.
   */
  lemma MarkerAcceptedIff(wal: seq<Body>, m: Body)
    requires Accepted(wal) && m.Persisted? && m.order != ""
    ensures Accepted(wal + [m]) <==>
      && (m.version == Versionless || m.version == IntVersion(2)) && m.fillId == "fill-" + m.order
      && m.fillingHash.Some? && m.post.Some? && (m.version == IntVersion(2) ==> m.commitId != "")
      && forall b :: b in wal && b.Persisted? && b.order == m.order ==>
           b.attempt == m.attempt && b.commitId == m.commitId && b.post == m.post && b.fillingHash == m.fillingHash
  {
    hide Accepted, NoTwins;
    assert forall i :: 0 <= i < |wal| ==> wal[i] in wal;
    if Accepted(wal + [m]) {
      PrefixAccepted(wal, m);
      forall b | b in wal && b.Persisted? && b.order == m.order
        ensures MarkersAgree(b, m)
      {
        var i :| 0 <= i < |wal| && wal[i] == b;
      }
    } else if BodyOk(m) && forall i :: 0 <= i < |wal| ==> MarkersAgree(wal[i], m) {
      AppendedAccepted(wal, m);
    }
  }

  /**
   * A commit intent under a new id, appended to an accepted log, is accepted exactly if it has version 2 or none,
   * a post state, and at least one reference, all complete, of different orders and attempts, and each naming
   * its filling. It may lack the state before the fills.
   */
  lemma IntentAcceptedIff(wal: seq<Body>, ci: Body)
    requires Accepted(wal) && ci.CommitIntent?
    requires forall b :: b in wal && b.CommitIntent? ==> b.commitId != ci.commitId
    ensures Accepted(wal + [ci]) <==>
      && (ci.version == Versionless || ci.version == IntVersion(2)) && ci.post.Some? && ci.fills != []
      && (forall i :: 0 <= i < |ci.fills| ==>
            ci.fills[i].order != "" && ci.fills[i].attempt != "" && ci.fills[i].hash.Some?)
      && (forall i, j :: 0 <= i < j < |ci.fills| ==>
            ci.fills[i].order != ci.fills[j].order && ci.fills[i].attempt != ci.fills[j].attempt)
      && (forall r :: r in ci.fills ==> RefResolves(wal, ci, r))
  {
    hide Accepted, RefResolves;
    assert forall i :: 0 <= i < |wal| ==> wal[i] in wal;
    forall r | r in ci.fills
      ensures RefResolves(wal + [ci], ci, r) <==> RefResolves(wal, ci, r)
    {
      SameReference(wal, ci, ci, r);
    }
    if Accepted(wal + [ci]) {
      PrefixAccepted(wal, ci);
    } else if BodyOk(ci) && forall r :: r in ci.fills ==> RefResolves(wal, ci, r) {
      AppendedAccepted(wal, ci);
    }
  }
}
