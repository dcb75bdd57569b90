/**
  The market acquisition journal: a hash chain of checkpoints, the validator that walks it, and what an
  accepted journal says about pages, continuation tokens and artifacts.
 */
module AcquisitionJournal {
  import opened Base

  type Id = nat

  const GENESIS: Id := 0
  const PAGE_MAX: nat := 16
  const AGGREGATE_BYTES_MAX: nat := 67108864
  const RAW_BYTES_MAX: nat := 10485760
  const RECORDS_PER_PAGE_MAX: nat := 10000
  const FACTS_MAX: nat := 160000
  const ATTEMPTS_MAX: nat := 48
  const TOKEN_BYTES_MAX: nat := 4096

  datatype Kind =
    | AcquisitionDeclared | RequestStarted | AttemptStarted | RequestSucceeded | ArtifactCommitted | ArtifactVerified
    | PageCheckpointed | ChainComplete | NormalizationStarted | NormalizationComplete | SelectionStarted
    | Completed | Stopped | FailedClean | Quarantined

  /** The token of a page: none on the first page, terminal after the last, otherwise a hash. */
  datatype Token = NoToken | TerminalToken | TokenHash(hash: Id)

  datatype Artifact = Artifact(
    observation: Option<Id>, digest: Option<Id>, size: Option<nat>, observationHash: Option<Id>, content: Option<Id>, raw: Option<Id>)

  datatype Counters = Counters(pages: nat, bytes: nat, records: nat, facts: nat, attempts: nat)

  /** The acquisition, request and attempt an artifact is pinned to. */
  datatype Pin = Pin(acquisition: Id, marketAcquisition: Id, request: Id, provider: string, attempt: Id, retrieval: Id, attemptOrdinal: nat)

  datatype Identity = Identity(request: Id, provider: string, dataset: string, feed: string, endpoint: string)

  /** `rest` is what the validator does not look at. */
  datatype Body = Body(
    identity: Identity, authorized: bool, pageOrdinal: nat, pin: Pin,
    currentToken: Token, currentMaterial: Option<string>, currentBinding: Option<Id>,
    nextToken: Option<Token>, nextMaterial: Option<string>, nextBinding: Option<Id>,
    artifact: Artifact, pageRecords: Option<nat>, pageFacts: Option<nat>, counters: Counters,
    parents: seq<Id>, terminal: Option<string>, reason: Option<string>, incomplete: bool, rest: string)

  datatype Entry = Entry(journal: Id, sequence: nat, prior: Id, kind: Kind, body: Body, hash: Id)

  datatype PageInput = PageInput(
    prior: Id, marketAcquisition: Id, request: Id, logicalPage: Id, pageOrdinal: nat, observation: Id, digest: Id,
    size: nat, observationHash: Id, content: Id, raw: Id, currentToken: Token, nextToken: Token, records: nat, totals: Counters)

  datatype BindingInput = BindingInput(
    marketAcquisition: Id, request: Id, logicalPage: Id, pageOrdinal: nat, observation: Id, digest: Id, chain: Id,
    nextOrdinal: nat, nextToken: Id)

  /** What is hashed, one constructor for each domain tag. */
  datatype Preimage =
    | JournalPre(identity: Identity)
    | TokenPre(material: string)
    | EntryPre(journal: Id, sequence: nat, prior: Id, kind: Kind, body: Body)
    | PagePre(input: PageInput)
    | BindingPre(binding: BindingInput)

  type Sha = Preimage -> Id

  ghost predicate Injective(sha: Sha) {
    forall x: Preimage, y: Preimage {:trigger sha(x), sha(y)} :: sha(x) == sha(y) ==> x == y
  }

  // ----- One entry -----

  function HashOfToken(sha: Sha, material: string): Option<Id> {
    if 1 <= |material| <= TOKEN_BYTES_MAX then Some(sha(TokenPre(material))) else None
  }

  predicate MaterialMatches(sha: Sha, material: Option<string>, token: Option<Token>) {
    material.Some? ==> HashOfToken(sha, material.value).Some? && token == Some(TokenHash(HashOfToken(sha, material.value).value))
  }

  predicate CountsOk(b: Body) {
    && b.pageOrdinal < PAGE_MAX && b.pin.attemptOrdinal <= 2
    && b.counters.pages <= PAGE_MAX && b.counters.bytes <= AGGREGATE_BYTES_MAX
    && b.counters.records <= PAGE_MAX * RECORDS_PER_PAGE_MAX && b.counters.facts <= FACTS_MAX && b.counters.attempts <= ATTEMPTS_MAX
    && (b.pageRecords.Some? ==> b.pageRecords.value <= RECORDS_PER_PAGE_MAX)
    && (b.pageFacts.Some? ==> b.pageFacts.value <= FACTS_MAX)
    && (b.artifact.size.Some? ==> b.artifact.size.value <= RAW_BYTES_MAX)
  }

  /** `validateCheckpointSemantics`. */
  predicate SemanticsOk(sha: Sha, b: Body) {
    && CountsOk(b) && b.authorized
    && (if b.pageOrdinal == 0 then b.currentToken == NoToken && b.currentMaterial == None && b.currentBinding == None
        else b.currentToken.TokenHash? && b.currentMaterial.Some? && b.currentBinding.Some?)
    && MaterialMatches(sha, b.currentMaterial, Some(b.currentToken))
    && MaterialMatches(sha, b.nextMaterial, b.nextToken)
    && (if b.terminal.None? then b.reason.None? && b.incomplete else b.reason.Some? && !b.incomplete)
    && StrictlyAscending(b.parents)
  }

  // ----- From one entry to the next -----

  predicate MayFollow(from: Kind, to: Kind) {
    var failed := to == Stopped || to == FailedClean || to == Quarantined;
    match from
    case AcquisitionDeclared => to == RequestStarted || failed
    case RequestStarted => to == AttemptStarted || failed
    case AttemptStarted => to == AttemptStarted || to == RequestSucceeded || failed
    case RequestSucceeded => to == AttemptStarted || to == ArtifactCommitted || failed
    case ArtifactCommitted => to == ArtifactVerified || failed
    case ArtifactVerified => to == PageCheckpointed || failed
    case PageCheckpointed => to == AttemptStarted || to == ChainComplete || to == Stopped || to == FailedClean
    case ChainComplete => to == NormalizationStarted || failed
    case NormalizationStarted => to == NormalizationComplete || failed
    case NormalizationComplete => to == SelectionStarted || failed
    case SelectionStarted => to == Completed || failed
    case _ => false
  }

  predicate Early(k: Kind) {
    k == AcquisitionDeclared || k == RequestStarted || k == AttemptStarted || k == RequestSucceeded
  }

  predicate ArtifactRequired(k: Kind) {
    !Early(k) && k != Stopped && k != FailedClean && k != Quarantined
  }

  predicate WholeArtifact(a: Artifact) {
    a.observation.Some? && a.digest.Some? && a.size.Some? && a.observationHash.Some? && a.content.Some? && a.raw.Some?
  }

  predicate NoArtifact(a: Artifact) {
    a == Artifact(None, None, None, None, None, None)
  }

  predicate ArtifactFits(e: Entry) {
    && (WholeArtifact(e.body.artifact) || NoArtifact(e.body.artifact))
    && (ArtifactRequired(e.kind) ==> WholeArtifact(e.body.artifact))
    && (Early(e.kind) ==> NoArtifact(e.body.artifact))
  }

  predicate Advances(previous: Entry, e: Entry) {
    previous.kind == PageCheckpointed && e.kind == AttemptStarted
  }

  /** A page is entered with the token and the binding its predecessor announced. */
  predicate Continues(previous: Entry, e: Entry) {
    && previous.body.nextToken.Some? && previous.body.nextToken.value != TerminalToken && previous.body.nextBinding.Some?
    && e.body.currentToken == previous.body.nextToken.value && e.body.currentBinding == previous.body.nextBinding
  }

  predicate NextTokenFits(e: Entry) {
    if Early(e.kind) || e.kind == ArtifactCommitted || e.kind == ArtifactVerified
    then e.body.nextToken.None? && e.body.nextMaterial.None? && e.body.nextBinding.None?
    else e.kind == PageCheckpointed ==>
      e.body.nextToken.Some?
      && ((e.body.nextToken.value == TerminalToken) <==> (e.body.nextMaterial.None? && e.body.nextBinding.None?))
  }

  /** `validateCheckpointTransition`. */
  predicate TransitionOk(previous: Option<Entry>, e: Entry) {
    && ArtifactFits(e)
    && if previous.None? then e.kind == AcquisitionDeclared && e.body.pageOrdinal == 0
       else
         var p := previous.value;
         && MayFollow(p.kind, e.kind)
         && e.body.pageOrdinal == p.body.pageOrdinal + (if Advances(p, e) then 1 else 0)
         && (Advances(p, e) ==> Continues(p, e))
         && (e.kind == ChainComplete ==> p.kind == PageCheckpointed && p.body.nextToken == Some(TerminalToken))
         && ((p.body.pageOrdinal == e.body.pageOrdinal && WholeArtifact(p.body.artifact) && WholeArtifact(e.body.artifact)) ==>
               p.body.pin == e.body.pin && p.body.artifact == e.body.artifact)
         && NextTokenFits(e)
  }

  predicate CountersRise(a: Counters, b: Counters) {
    a.pages <= b.pages && a.bytes <= b.bytes && a.records <= b.records && a.facts <= b.facts && a.attempts <= b.attempts
  }

  predicate Linked(sha: Sha, previous: Option<Entry>, e: Entry) {
    && e.sequence == (if previous.None? then 0 else previous.value.sequence + 1)
    && e.prior == (if previous.None? then GENESIS else previous.value.hash)
    && e.hash == sha(EntryPre(e.journal, e.sequence, e.prior, e.kind, e.body))
  }

  function Before(entries: seq<Entry>, i: nat): Option<Entry>
    requires i <= |entries|
  {
    if i == 0 then None else Some(entries[i - 1])
  }

  predicate Dispatches(e: Entry) {
    e.kind == AttemptStarted && e.body.pageOrdinal > 0
  }

  /** The token was dispatched by an earlier entry. */
  predicate Consumed(entries: seq<Entry>, i: nat, t: Token)
    requires i <= |entries|
  {
    exists j :: 0 <= j < i && Dispatches(entries[j]) && entries[j].body.currentToken == t
  }

  /** Everything the walk checks at entry `i`. */
  predicate EntryOk(sha: Sha, identity: Identity, entries: seq<Entry>, i: nat)
    requires i < |entries|
  {
    var e, previous := entries[i], Before(entries, i);
    && e.journal == sha(JournalPre(identity)) && e.body.identity == identity
    && Linked(sha, previous, e)
    && (previous.Some? ==> CountersRise(previous.value.body.counters, e.body.counters) && previous.value.body.terminal.None?)
    && SemanticsOk(sha, e.body)
    && (Dispatches(e) ==> !Consumed(entries, i, e.body.currentToken))
    && TransitionOk(previous, e)
  }

  predicate Accepted(sha: Sha, identity: Identity, entries: seq<Entry>) {
    entries != [] && forall i :: 0 <= i < |entries| ==> EntryOk(sha, identity, entries, i)
  }

  // ----- The walk -----

  ghost predicate ConsumedSet(entries: seq<Entry>, i: nat, tokens: set<Token>)
    requires i <= |entries|
  {
    forall t :: t in tokens <==> Consumed(entries, i, t)
  }

  lemma ConsumedNext(entries: seq<Entry>, i: nat, t: Token)
    requires i < |entries|
    ensures Consumed(entries, i + 1, t) <==>
              Consumed(entries, i, t) || (Dispatches(entries[i]) && entries[i].body.currentToken == t)
  {
  }

  /** The walk over the entries, with the tokens consumed so far in a set. */
  method ValidateJournalEntries(sha: Sha, identity: Identity, entries: seq<Entry>) returns (ok: bool)
    ensures ok == Accepted(sha, identity, entries)
  {
    hide Linked, SemanticsOk, TransitionOk, CountersRise, Dispatches, Consumed, EntryOk;
    if entries == [] { return false; }
    var journal := sha(JournalPre(identity));
    var previous: Option<Entry> := None;
    var terminalSeen := false;
    var counters := Counters(0, 0, 0, 0, 0);
    var consumed: set<Token> := {};
    NothingConsumed(entries);
    for i := 0 to |entries|
      invariant previous == Before(entries, i) && ConsumedSet(entries, i, consumed)
      invariant terminalSeen == (previous.Some? && previous.value.body.terminal.Some?)
      invariant counters == (if previous.None? then Counters(0, 0, 0, 0, 0) else previous.value.body.counters)
      invariant forall j :: 0 <= j < i ==> EntryOk(sha, identity, entries, j)
    {
      var e := entries[i];
      EntryIs(sha, identity, entries, i, consumed);
      forall t ensures Consumed(entries, i + 1, t) <==> Consumed(entries, i, t) || (Dispatches(e) && e.body.currentToken == t) {
        ConsumedNext(entries, i, t);
      }
      if e.journal != journal || e.body.identity != identity { return false; }
      if !Linked(sha, previous, e) { return false; }
      if !CountersRise(counters, e.body.counters) || terminalSeen { CountersFromZero(e.body.counters); return false; }
      if !SemanticsOk(sha, e.body) { return false; }
      if Dispatches(e) {
        if e.body.currentToken in consumed { return false; }
        consumed := consumed + {e.body.currentToken};
      }
      if !TransitionOk(previous, e) { return false; }
      terminalSeen := e.body.terminal.Some?;
      counters := e.body.counters;
      previous := Some(e);
    }
    ok := true;
  }

  lemma NothingConsumed(entries: seq<Entry>)
    ensures ConsumedSet(entries, 0, {})
  {
  }

  lemma CountersFromZero(c: Counters)
    ensures CountersRise(Counters(0, 0, 0, 0, 0), c)
  {
  }

  lemma EntryIs(sha: Sha, identity: Identity, entries: seq<Entry>, i: nat, consumed: set<Token>)
    requires i < |entries| && ConsumedSet(entries, i, consumed)
    ensures var e, previous := entries[i], Before(entries, i);
            EntryOk(sha, identity, entries, i) <==>
              && e.journal == sha(JournalPre(identity)) && e.body.identity == identity && Linked(sha, previous, e)
              && (previous.Some? ==> CountersRise(previous.value.body.counters, e.body.counters) && previous.value.body.terminal.None?)
              && SemanticsOk(sha, e.body)
              && (Dispatches(e) ==> e.body.currentToken !in consumed)
              && TransitionOk(previous, e)
  {
    hide Linked, SemanticsOk, TransitionOk, CountersRise, Dispatches, Consumed;
  }

  // ----- Accepted journals grow by appending -----

  lemma EntryOkPrefix(sha: Sha, identity: Identity, entries: seq<Entry>, n: nat, i: nat)
    requires i < n <= |entries|
    ensures EntryOk(sha, identity, entries[..n], i) <==> EntryOk(sha, identity, entries, i)
  {
    hide Linked, SemanticsOk, TransitionOk, CountersRise, Dispatches;
    var head := entries[..n];
    assert head[i] == entries[i] && Before(head, i) == Before(entries, i);
    assert Consumed(head, i, head[i].body.currentToken) <==> Consumed(entries, i, entries[i].body.currentToken) by {
      if j :| 0 <= j < i && Dispatches(entries[j]) && entries[j].body.currentToken == entries[i].body.currentToken {
        assert head[j] == entries[j];
      }
      if j :| 0 <= j < i && Dispatches(head[j]) && head[j].body.currentToken == head[i].body.currentToken {
        assert head[j] == entries[j];
      }
    }
  }

  /** Every non-empty prefix of an accepted journal is accepted. */
  lemma PrefixClosed(sha: Sha, identity: Identity, entries: seq<Entry>, n: nat)
    requires Accepted(sha, identity, entries) && 0 < n <= |entries|
    ensures Accepted(sha, identity, entries[..n])
  {
    hide EntryOk;
    forall i | 0 <= i < n ensures EntryOk(sha, identity, entries[..n], i) {
      EntryOkPrefix(sha, identity, entries, n, i);
    }
  }

  /** An entry sealed onto a journal. */
  function Seal(sha: Sha, previous: Option<Entry>, journal: Id, kind: Kind, body: Body): Entry {
    var sequence := if previous.None? then 0 else previous.value.sequence + 1;
    var prior := if previous.None? then GENESIS else previous.value.hash;
    Entry(journal, sequence, prior, kind, body, sha(EntryPre(journal, sequence, prior, kind, body)))
  }

  /** What `createJournalEntry` builds always links to what it was built on. */
  lemma SealLinks(sha: Sha, previous: Option<Entry>, journal: Id, kind: Kind, body: Body)
    ensures Linked(sha, previous, Seal(sha, previous, journal, kind, body))
  {
  }

  class MemoryAcquisitionJournal {
    const sha: Sha
    const identity: Identity
    var entries: seq<Entry>

    ghost predicate Valid()
      reads this
    {
      entries == [] || Accepted(sha, identity, entries)
    }

    constructor (sha: Sha, identity: Identity)
      ensures Valid() && entries == [] && this.sha == sha && this.identity == identity
    {
      this.sha := sha;
      this.identity := identity;
      entries := [];
    }

    /** An entry is stored exactly when the journal with it is accepted. */
    method Append(e: Entry) returns (ok: bool)
      requires Valid()
      modifies this
      ensures Valid()
      ensures ok == Accepted(sha, identity, old(entries) + [e])
      ensures entries == if ok then old(entries) + [e] else old(entries)
    {
      hide EntryOk;
      if e.journal != sha(JournalPre(identity)) {
        WrongJournal(sha, identity, entries, e);
        return false;
      }
      var prospective := entries + [e];
      ok := ValidateJournalEntries(sha, identity, prospective);
      if ok { entries := prospective; }
    }

    /** One request is claimed by one attempt: only the exact request-started head is consumed. */
    method ClaimAttemptStarted(expected: Id, e: Entry) returns (claimed: bool)
      requires Valid()
      modifies this
      ensures Valid()
      ensures claimed <==>
                && old(entries) != [] && e.kind == AttemptStarted
                && old(entries)[|old(entries)| - 1].kind == RequestStarted
                && old(entries)[|old(entries)| - 1].hash == expected
                && Accepted(sha, identity, old(entries) + [e])
      ensures entries == if claimed then old(entries) + [e] else old(entries)
    {
      hide EntryOk;
      if entries == [] { return false; }
      var latest := entries[|entries| - 1];
      if latest.kind != RequestStarted || latest.hash != expected || e.kind != AttemptStarted { return false; }
      var prospective := entries + [e];
      var ok := ValidateJournalEntries(sha, identity, prospective);
      if !ok { return false; }
      entries := prospective;
      claimed := true;
    }
  }

  lemma WrongJournal(sha: Sha, identity: Identity, entries: seq<Entry>, e: Entry)
    requires e.journal != sha(JournalPre(identity))
    ensures !Accepted(sha, identity, entries + [e])
  {
    var all := entries + [e];
    assert !EntryOk(sha, identity, all, |entries|);
  }

  // ----- What an accepted journal says -----

  lemma At(sha: Sha, identity: Identity, entries: seq<Entry>, i: nat)
    requires Accepted(sha, identity, entries) && i < |entries|
    ensures TransitionOk(Before(entries, i), entries[i]) && SemanticsOk(sha, entries[i].body)
    ensures Dispatches(entries[i]) ==> !Consumed(entries, i, entries[i].body.currentToken)
  {
    assert EntryOk(sha, identity, entries, i);
    hide Linked, SemanticsOk, TransitionOk, CountersRise, Dispatches, Consumed;
  }

  /** Pages never go back, and go on by one only where a checkpointed page is followed by an attempt. */
  lemma {:induction false} PagesRise(sha: Sha, identity: Identity, entries: seq<Entry>, i: nat, j: nat)
    requires Accepted(sha, identity, entries) && i <= j < |entries|
    ensures entries[i].body.pageOrdinal <= entries[j].body.pageOrdinal <= entries[i].body.pageOrdinal + (j - i)
    decreases j
  {
    hide Accepted, SemanticsOk;
    if i < j {
      PagesRise(sha, identity, entries, i, j - 1);
      At(sha, identity, entries, j);
    }
  }

  lemma PageStep(sha: Sha, identity: Identity, entries: seq<Entry>, i: nat)
    requires Accepted(sha, identity, entries) && 0 < i < |entries|
    ensures entries[i].body.pageOrdinal != entries[i - 1].body.pageOrdinal ==>
              && entries[i].body.pageOrdinal == entries[i - 1].body.pageOrdinal + 1
              && entries[i - 1].kind == PageCheckpointed && entries[i].kind == AttemptStarted
              && Continues(entries[i - 1], entries[i])
    ensures MayFollow(entries[i - 1].kind, entries[i].kind)
  {
    hide Accepted, SemanticsOk;
    At(sha, identity, entries, i);
  }

  /** The page after a checkpoint is entered with exactly the token and binding the checkpoint announced. */
  lemma {:induction false} PageEntered(sha: Sha, identity: Identity, entries: seq<Entry>, j: nat) returns (i: nat)
    requires Accepted(sha, identity, entries) && j < |entries| && entries[j].body.pageOrdinal > 0
    ensures 0 < i <= j
    ensures entries[i - 1].body.pageOrdinal + 1 == entries[i].body.pageOrdinal == entries[j].body.pageOrdinal
    ensures entries[i - 1].kind == PageCheckpointed && entries[i].kind == AttemptStarted && Continues(entries[i - 1], entries[i])
    decreases j
  {
    hide Accepted, SemanticsOk, Continues;
    if j == 0 {
      At(sha, identity, entries, 0);
      assert false;
    } else {
      PageStep(sha, identity, entries, j);
      if entries[j].body.pageOrdinal != entries[j - 1].body.pageOrdinal { i := j; }
      else { i := PageEntered(sha, identity, entries, j - 1); }
    }
  }

  /** No continuation token is dispatched twice. */
  lemma TokenOnce(sha: Sha, identity: Identity, entries: seq<Entry>, i: nat, j: nat)
    requires Accepted(sha, identity, entries) && i < j < |entries| && Dispatches(entries[i]) && Dispatches(entries[j])
    ensures entries[i].body.currentToken != entries[j].body.currentToken
  {
    hide Accepted, SemanticsOk, TransitionOk;
    At(sha, identity, entries, j);
  }

  predicate HasArtifact(e: Entry) {
    WholeArtifact(e.body.artifact)
  }

  /** Once a page has its artifact, every later checkpoint of the page carries the same one, for the same attempt. */
  lemma {:induction false} ArtifactsAgree(sha: Sha, identity: Identity, entries: seq<Entry>, i: nat, j: nat)
    requires Accepted(sha, identity, entries) && i <= j < |entries|
    requires entries[i].body.pageOrdinal == entries[j].body.pageOrdinal
    requires HasArtifact(entries[i]) && HasArtifact(entries[j])
    ensures entries[i].body.artifact == entries[j].body.artifact && entries[i].body.pin == entries[j].body.pin
    decreases j
  {
    hide Accepted, SemanticsOk, WholeArtifact;
    if i < j {
      PagesRise(sha, identity, entries, i, j - 1);
      PagesRise(sha, identity, entries, j - 1, j);
      At(sha, identity, entries, j);
      ArtifactStays(sha, identity, entries, i, j - 1);
      ArtifactsAgree(sha, identity, entries, i, j - 1);
    }
  }

  /** An entry that is followed by another of its page keeps the page's artifact. */
  lemma {:induction false} ArtifactStays(sha: Sha, identity: Identity, entries: seq<Entry>, i: nat, j: nat)
    requires Accepted(sha, identity, entries) && i <= j && j + 1 < |entries|
    requires entries[i].body.pageOrdinal == entries[j].body.pageOrdinal == entries[j + 1].body.pageOrdinal && HasArtifact(entries[i])
    ensures HasArtifact(entries[j]) && ArtifactRequired(entries[j].kind)
    decreases j
  {
    hide Accepted, SemanticsOk, WholeArtifact, Continues;
    At(sha, identity, entries, j);
    At(sha, identity, entries, j + 1);
    if i < j {
      PagesRise(sha, identity, entries, i, j - 1);
      PagesRise(sha, identity, entries, j - 1, j);
      ArtifactStays(sha, identity, entries, i, j - 1);
    } else {
      assert !Early(entries[i].kind) by { EarlyHasNone(entries[i]); }
    }
  }

  lemma EarlyHasNone(e: Entry)
    requires ArtifactFits(e) && WholeArtifact(e.body.artifact)
    ensures !Early(e.kind)
  {
  }

  predicate CheckpointedPage(entries: seq<Entry>, page: nat) {
    exists i :: 0 <= i < |entries| && entries[i].kind == PageCheckpointed && entries[i].body.pageOrdinal == page
  }

  /** Every page before the one an entry is on has been checkpointed. */
  lemma {:induction false} EarlierPagesCheckpointed(sha: Sha, identity: Identity, entries: seq<Entry>, j: nat, page: nat)
    requires Accepted(sha, identity, entries) && j < |entries| && page < entries[j].body.pageOrdinal
    ensures CheckpointedPage(entries, page)
    decreases j
  {
    hide Accepted, Continues;
    var i := PageEntered(sha, identity, entries, j);
    assert entries[i - 1].body.pageOrdinal == entries[j].body.pageOrdinal - 1;
    if page < entries[i - 1].body.pageOrdinal { EarlierPagesCheckpointed(sha, identity, entries, i - 1, page); }
  }

  predicate AfterChain(k: Kind) {
    k == ChainComplete || k == NormalizationStarted || k == NormalizationComplete || k == SelectionStarted || k == Completed
  }

  /** Behind every stage after the pages stands the last page's checkpoint with a terminal token. */
  lemma {:induction false} ChainCompleted(sha: Sha, identity: Identity, entries: seq<Entry>, j: nat) returns (i: nat)
    requires Accepted(sha, identity, entries) && j < |entries| && AfterChain(entries[j].kind)
    ensures i < j && entries[i].kind == PageCheckpointed && entries[i].body.nextToken == Some(TerminalToken)
    ensures entries[i].body.pageOrdinal == entries[j].body.pageOrdinal
    decreases j
  {
    hide Accepted, SemanticsOk, WholeArtifact, Continues;
    At(sha, identity, entries, j);
    if j == 0 {
      assert false;
    } else {
      if entries[j].kind == ChainComplete { i := j - 1; } else { i := ChainCompleted(sha, identity, entries, j - 1); }
    }
  }

  /** A completed journal has checkpointed every page up to the last, and the last announced the end. */
  lemma CompletedWellPaged(sha: Sha, identity: Identity, entries: seq<Entry>, j: nat)
    requires Accepted(sha, identity, entries) && j < |entries| && entries[j].kind == Completed
    ensures j == |entries| - 1
    ensures forall page :: 0 <= page <= entries[j].body.pageOrdinal ==> CheckpointedPage(entries, page)
    ensures exists i :: 0 <= i < j && entries[i].kind == PageCheckpointed && entries[i].body.nextToken == Some(TerminalToken)
                        && entries[i].body.pageOrdinal == entries[j].body.pageOrdinal
  {
    hide Accepted, SemanticsOk, WholeArtifact;
    var i := ChainCompleted(sha, identity, entries, j);
    forall page | 0 <= page <= entries[j].body.pageOrdinal ensures CheckpointedPage(entries, page) {
      if page < entries[j].body.pageOrdinal { EarlierPagesCheckpointed(sha, identity, entries, j, page); }
    }
    if j + 1 < |entries| { At(sha, identity, entries, j + 1); }
  }

  /** A retry on a later page with the page's own token is refused: the token is already consumed. */
  lemma SameTokenRetryRefused(sha: Sha, identity: Identity, entries: seq<Entry>, e: Entry)
    requires Accepted(sha, identity, entries) && Dispatches(entries[|entries| - 1]) && Dispatches(e)
    requires e.body.currentToken == entries[|entries| - 1].body.currentToken
    ensures !Accepted(sha, identity, entries + [e])
  {
    var all, n := entries + [e], |entries|;
    assert all[n - 1] == entries[n - 1] && all[n] == e;
    if Accepted(sha, identity, all) { TokenOnce(sha, identity, all, n - 1, n); }
  }

  // ----- Admitting a page, and continuing from it -----

  datatype Admission = Admission(chain: Id, nextToken: Token, nextBinding: Option<Id>)

  function Binding(sha: Sha, p: PageInput, chain: Id, token: Id): Id {
    sha(BindingPre(BindingInput(p.marketAcquisition, p.request, p.logicalPage, p.pageOrdinal, p.observation, p.digest, chain,
                                p.pageOrdinal + 1, token)))
  }

  /** `planPageAdmission`: the chain first, then the binding over it. `None` where the token is no token. */
  function PlanAdmission(sha: Sha, p: PageInput, nextMaterial: Option<string>): Option<Admission> {
    if nextMaterial.None? then Some(Admission(sha(PagePre(p.(nextToken := TerminalToken))), TerminalToken, None))
    else
      var token := HashOfToken(sha, nextMaterial.value);
      if token.None? then None
      else
        var chain := sha(PagePre(p.(nextToken := TokenHash(token.value))));
        Some(Admission(chain, TokenHash(token.value), Some(Binding(sha, p, chain, token.value))))
  }

  /** `validateContinuationAuthority`: the next page may be asked for with this token and binding. */
  predicate MayContinue(
      sha: Sha, p: PageInput, a: Admission, request: Id, pageOrdinal: nat, material: string, token: Token, binding: Option<Id>,
      consumed: set<Token>)
  {
    && request == p.request && pageOrdinal == p.pageOrdinal + 1
    && HashOfToken(sha, material).Some?
    && token == TokenHash(HashOfToken(sha, material).value) && token == a.nextToken && token !in consumed
    && a.nextBinding == Some(sha(BindingPre(BindingInput(p.marketAcquisition, p.request, p.logicalPage, p.pageOrdinal, p.observation, p.digest,
                                                         a.chain, pageOrdinal, HashOfToken(sha, material).value))))
    && binding == a.nextBinding
  }

  /**
    What the planner announces is what the authority accepts: exactly the announced token material, on the
    next page of the same request, under the announced binding, and only once.
   */
  lemma PlannedContinues(
      sha: Sha, p: PageInput, next: Option<string>, request: Id, pageOrdinal: nat, material: string, token: Token,
      binding: Option<Id>, consumed: set<Token>)
    requires Injective(sha) && PlanAdmission(sha, p, next).Some?
    ensures var a := PlanAdmission(sha, p, next).value;
            MayContinue(sha, p, a, request, pageOrdinal, material, token, binding, consumed) <==>
              && next == Some(material) && request == p.request && pageOrdinal == p.pageOrdinal + 1
              && token == a.nextToken && binding == a.nextBinding && a.nextToken !in consumed
  {
    if next.Some? && HashOfToken(sha, material).Some?
       && HashOfToken(sha, material) == HashOfToken(sha, next.value) {
      assert sha(TokenPre(material)) == sha(TokenPre(next.value));
    }
  }

  predicate PageLinked(sha: Sha, pages: seq<PageInput>, i: nat)
    requires i < |pages|
  {
    pages[i].pageOrdinal == i && pages[i].prior == (if i == 0 then GENESIS else sha(PagePre(pages[i - 1])))
  }

  /** A chain of admitted pages, each over the hash of the one before. */
  predicate PageChain(sha: Sha, pages: seq<PageInput>) {
    forall i :: 0 <= i < |pages| ==> PageLinked(sha, pages, i)
  }

  lemma PageChainPrefix(sha: Sha, pages: seq<PageInput>, n: nat)
    requires PageChain(sha, pages) && n <= |pages|
    ensures PageChain(sha, pages[..n])
  {
    var head := pages[..n];
    forall i | 0 <= i < n ensures PageLinked(sha, head, i) {
      assert PageLinked(sha, pages, i) && head[i] == pages[i] && (i > 0 ==> head[i - 1] == pages[i - 1]);
    }
  }

  /** The hash of the last page determines every admitted page. */
  lemma {:induction false} PageChainDetermines(sha: Sha, a: seq<PageInput>, b: seq<PageInput>)
    requires Injective(sha) && PageChain(sha, a) && PageChain(sha, b) && a != [] && b != []
    requires sha(PagePre(a[|a| - 1])) == sha(PagePre(b[|b| - 1]))
    ensures a == b
    decreases |a|
  {
    var n := |a| - 1;
    assert PageLinked(sha, a, n) && PageLinked(sha, b, |b| - 1);
    assert a[n] == b[|b| - 1] && |b| == n + 1;
    if n > 0 {
      PageChainPrefix(sha, a, n);
      PageChainPrefix(sha, b, n);
      assert a[..n][n - 1] == a[n - 1] && b[..n][n - 1] == b[n - 1];
      PageChainDetermines(sha, a[..n], b[..n]);
    }
    assert a == a[..n] + [a[n]] && b == b[..n] + [b[n]];
  }
}
