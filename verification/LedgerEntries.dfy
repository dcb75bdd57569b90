/** What makes one entry of the ledger well made by itself, field by field and kind by kind. */
module LedgerEntries {
  import opened Base
  import opened ObservationLedger
  import KeyOrder

  predicate Named(s: string) {
    1 <= |s| <= 512
  }

  predicate MaybeNamed(s: Option<string>) {
    s.Some? ==> Named(s.value)
  }

  /** Raw links are told apart by their roles and listed in the order of these. */
  predicate LinksInOrder(links: seq<RawLink>) {
    && 1 <= |links| <= 16
    && (forall i :: 0 <= i < |links| ==> Named(links[i].role))
    && (forall i, j :: 0 <= i < j < |links| ==> links[i].role != links[j].role)
    && forall i :: 0 < i < |links| ==> KeyOrder.Precedes(KeyOrder.Codes(links[i - 1].role), KeyOrder.Codes(links[i].role))
  }

  /** One link, and no other, is of this artifact. */
  predicate OneLinkOf(links: seq<RawLink>, digest: Id) {
    exists i :: 0 <= i < |links| && links[i].digest == digest && forall j :: 0 <= j < |links| && links[j].digest == digest ==> j == i
  }

  /** A clock that is read has a synchronization, one with a bound says which, and a monotonic one names its session. */
  predicate ClockWellMade(b: ClockBasis) {
    && (b.wallClock == SystemUtc <==> b.synchronization in {VerifiedBound, OperatorAsserted, Unspecified})
    && (b.synchronization == VerifiedBound <==> b.maximumErrorMs != None)
    && (b.monotonic <==> b.sessionId != None) && MaybeNamed(b.sessionId)
  }

  /** A selection names its branch, its join key and the time it trusts, which is not after the time it is as of. */
  predicate SelectionWellMade(s: Selection) {
    && Named(s.subject) && MaybeNamed(s.branch)
    && (s.purpose == AnalysisBranchInput <==> s.branch != None)
    && (s.purpose == MarketReferenceAnchor <==> s.joinKey != None)
    && match s.basis
       case CaptureBasis(_, receivedAtMs, _, _) => s.byCapture && receivedAtMs <= s.asOfMs
       case RetrievalBasis(role, _, _, retrievedAtMs, _) => !s.byCapture && Named(role) && retrievedAtMs <= s.asOfMs
  }

  predicate FactsWellMade(k: Kernel, f: Facts) {
    match f
    case ClockBasisDeclared(b) => ClockWellMade(b) && k.derived(f)
    case AcquisitionDeclared(_, provider, attempt, _, route) => Named(provider) && Named(attempt) && Named(route) && k.derived(f)
    case ArtifactVerified(_, _, _, metadataSize, consumedSize) => consumedSize == metadataSize
    case NormalizationEmitted(n) =>
      && LinksInOrder(n.links) && Named(n.subject) && k.derived(f)
      && if n.primaryKind == RawArtifact then OneLinkOf(n.links, n.primaryHash) else n.primaryHash == n.projectionDigest
    case NormalizationIgnored(links, reason, _) => LinksInOrder(links) && Named(reason)
    case NormalizationQuarantined(links, normalizer, transcript, reason, _) =>
      LinksInOrder(links) && Named(reason) && MaybeNamed(normalizer) && (normalizer == None <==> transcript == None)
    case CaptureAppended(c) => c.position > 0
    case CaptureRedelivered(c) => c.position > 0
    case SelectionRecorded(s) => SelectionWellMade(s) && (s.purpose == MarketReferenceAnchor ==> k.derived(f))
    case FailureRecorded(_, _, _, _, reason, _) => Named(reason)
    case ClockRegression(_, _, priorWallMs, currentWallMs, _) => priorWallMs > currentWallMs
    case _ => true
  }

  /** Named by the hash of its body, of a named execution, with its parents in order. */
  predicate WellMade(k: Kernel, e: Entry) {
    && e.id == k.hash(e.body) && Named(e.body.execution) && |e.body.parents| <= 32
    && (forall i, j :: 0 <= i < j < |e.body.parents| ==> e.body.parents[i] < e.body.parents[j])
    && FactsWellMade(k, e.body.facts)
  }

  lemma {:induction false} CountedOnce(links: seq<RawLink>, digest: Id)
    ensures CountDigest(links, digest) == 0 <==> forall i :: 0 <= i < |links| ==> links[i].digest != digest
    ensures CountDigest(links, digest) == 1 <==> OneLinkOf(links, digest)
  {
    if links != [] {
      CountedOnce(links[1..], digest);
      assert forall i :: 0 < i < |links| ==> links[i] == links[1..][i - 1];
      if OneLinkOf(links[1..], digest) && links[0].digest != digest {
        var i :| 0 <= i < |links| - 1 && links[1..][i].digest == digest && forall j :: 0 <= j < |links| - 1 && links[1..][j].digest == digest ==> j == i;
        assert links[i + 1].digest == digest;
        forall j | 0 <= j < |links| && links[j].digest == digest ensures j == i + 1 { assert links[1..][j - 1].digest == digest; }
      }
      if OneLinkOf(links, digest) && links[0].digest != digest {
        var i :| 0 <= i < |links| && links[i].digest == digest && forall j :: 0 <= j < |links| && links[j].digest == digest ==> j == i;
        assert links[1..][i - 1].digest == digest;
        forall j | 0 <= j < |links| - 1 && links[1..][j].digest == digest ensures j == i - 1 { assert links[j + 1].digest == digest; }
      }
      if OneLinkOf(links, digest) && links[0].digest == digest {
        forall j | 0 <= j < |links| - 1 ensures links[1..][j].digest != digest { assert links[j + 1].digest == links[1..][j].digest; }
      }
      if links[0].digest == digest && forall j :: 0 <= j < |links| - 1 ==> links[1..][j].digest != digest {
        assert links[0].digest == digest && forall j :: 0 <= j < |links| && links[j].digest == digest ==> j == 0;
      }
    }
  }

  lemma LinksExactly(links: seq<RawLink>)
    ensures ValidLinks(links) <==> LinksInOrder(links)
  {
    hide KeyOrder.Precedes, KeyOrder.Codes, StringLess;
    forall i | 0 < i < |links|
      ensures StringLess(links[i - 1].role, links[i].role) <==> KeyOrder.Precedes(KeyOrder.Codes(links[i - 1].role), KeyOrder.Codes(links[i].role)) {
      KeyOrder.StringLessExactly(links[i - 1].role, links[i].role);
    }
  }

  lemma FactsExactly(k: Kernel, f: Facts)
    ensures ValidFacts(k, f) <==> FactsWellMade(k, f)
  {
    hide ValidLinks, LinksInOrder, CountDigest, OneLinkOf;
    LinksExactly(LinksOf(f));
    if f.NormalizationEmitted? { CountedOnce(f.emission.links, f.emission.primaryHash); }
    if f.ClockBasisDeclared? { ClockExactly(f.clockBasis); }
  }

  lemma ClockExactly(b: ClockBasis)
    ensures ValidClockBasis(b) <==> ClockWellMade(b)
  {
  }

  lemma AscendingExactly(s: seq<Id>)
    ensures StrictlyAscending(s) <==> forall i, j :: 0 <= i < j < |s| ==> s[i] < s[j]
  {
    if StrictlyAscending(s) {
      forall i, j | 0 <= i < j < |s| ensures s[i] < s[j] { AscendingPairs(s, i, j); }
    }
  }

  /** The factory gives an entry back unchanged exactly if it is well made. */
  lemma MadeExactly(k: Kernel, e: Entry)
    ensures Create(k, e.body) == Some(e) <==> WellMade(k, e)
  {
    hide ValidFacts, FactsWellMade, StrictlyAscending;
    FactsExactly(k, e.body.facts);
    AscendingExactly(e.body.parents);
  }
}
