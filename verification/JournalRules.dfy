/**
  What acceptance means for the order of a journal's entries: the stages of a page stand one behind the
  other, counters never fall, and nothing follows the end.
 */
module JournalRules {
  import opened Base
  import opened AcquisitionJournal

  /** The place of a stage in an acquisition that needs no retry and has one page. */
  function StageOf(k: Kind): Option<nat> {
    match k
    case AcquisitionDeclared => Some(0)
    case RequestStarted => Some(1)
    case AttemptStarted => Some(2)
    case RequestSucceeded => Some(3)
    case ArtifactCommitted => Some(4)
    case ArtifactVerified => Some(5)
    case PageCheckpointed => Some(6)
    case ChainComplete => Some(7)
    case NormalizationStarted => Some(8)
    case NormalizationComplete => Some(9)
    case SelectionStarted => Some(10)
    case Completed => Some(11)
    case _ => None
  }

  predicate GivesUp(k: Kind) {
    StageOf(k).None?
  }

  /** An attempt may be made again until its artifact is committed, and is made for the page after a checkpoint. */
  predicate AttemptsAgain(from: Kind, to: Kind) {
    to == AttemptStarted && (from == AttemptStarted || from == RequestSucceeded || from == PageCheckpointed)
  }

  /** A stage follows the one before it or starts an attempt again; until the end an acquisition may be given up, but a checkpointed page is not quarantined. */
  lemma MayFollowExactly(from: Kind, to: Kind)
    ensures MayFollow(from, to) <==>
              && !GivesUp(from) && from != Completed
              && (|| (GivesUp(to) && !(from == PageCheckpointed && to == Quarantined))
                  || (!GivesUp(to) && StageOf(to).value == StageOf(from).value + 1)
                  || AttemptsAgain(from, to))
  {
  }

  /** Behind every stage after an attempt's start stand the stages before it, entry by entry, down to the attempt or the page's checkpoint. */
  lemma {:induction false} StagesBehind(sha: Sha, identity: Identity, entries: seq<Entry>, j: nat, n: nat)
    requires Accepted(sha, identity, entries) && j < |entries|
    requires StageOf(entries[j].kind).Some? && n + 2 <= StageOf(entries[j].kind).value
    ensures n <= j && StageOf(entries[j - n].kind) == Some(StageOf(entries[j].kind).value - n)
    decreases n
  {
    hide Accepted;
    if n > 0 {
      StagesBehind(sha, identity, entries, j, n - 1);
      var i := j - (n - 1);
      FirstDeclares(sha, identity, entries);
      assert i > 0;
      At(sha, identity, entries, i);
      MayFollowExactly(entries[i - 1].kind, entries[i].kind);
      hide TransitionOk, SemanticsOk, Dispatches;
      FollowsOf(sha, identity, entries, i);
    }
  }

  lemma FirstDeclares(sha: Sha, identity: Identity, entries: seq<Entry>)
    requires Accepted(sha, identity, entries)
    ensures entries[0].kind == AcquisitionDeclared && entries[0].body.pageOrdinal == 0
  {
    assert EntryOk(sha, identity, entries, 0);
    hide Linked, SemanticsOk, CountersRise, Dispatches, Consumed, ArtifactFits;
  }

  lemma FollowsOf(sha: Sha, identity: Identity, entries: seq<Entry>, i: nat)
    requires Accepted(sha, identity, entries) && 0 < i < |entries|
    ensures MayFollow(entries[i - 1].kind, entries[i].kind)
  {
    hide Accepted;
    PageStep(sha, identity, entries, i);
  }

  lemma EntryParts(sha: Sha, identity: Identity, entries: seq<Entry>, i: nat)
    requires Accepted(sha, identity, entries) && i < |entries|
    ensures i > 0 ==> CountersRise(entries[i - 1].body.counters, entries[i].body.counters) && entries[i - 1].body.terminal.None?
    ensures SemanticsOk(sha, entries[i].body) && entries[i].body.identity == identity
  {
    assert EntryOk(sha, identity, entries, i);
    hide Linked, SemanticsOk, TransitionOk, CountersRise, Dispatches, Consumed;
  }

  /** No counter ever falls. */
  lemma {:induction false} CountersNeverFall(sha: Sha, identity: Identity, entries: seq<Entry>, i: nat, j: nat)
    requires Accepted(sha, identity, entries) && i <= j < |entries|
    ensures var a, b := entries[i].body.counters, entries[j].body.counters;
            a.pages <= b.pages && a.bytes <= b.bytes && a.records <= b.records && a.facts <= b.facts && a.attempts <= b.attempts
    decreases j
  {
    hide Accepted, SemanticsOk;
    if i < j {
      CountersNeverFall(sha, identity, entries, i, j - 1);
      EntryParts(sha, identity, entries, j);
    }
  }

  /** Every entry is authorized, and exactly a terminal one, which is the last, gives its reason and is not incomplete. */
  lemma TerminalLast(sha: Sha, identity: Identity, entries: seq<Entry>, i: nat)
    requires Accepted(sha, identity, entries) && i < |entries|
    ensures entries[i].body.authorized && entries[i].body.identity == identity
    ensures entries[i].body.terminal.Some? <==> !entries[i].body.incomplete
    ensures entries[i].body.terminal.Some? <==> entries[i].body.reason.Some?
    ensures entries[i].body.terminal.Some? || GivesUp(entries[i].kind) || entries[i].kind == Completed ==> i == |entries| - 1
  {
    hide Accepted;
    EntryParts(sha, identity, entries, i);
    hide SemanticsOk, CountersRise;
    if i + 1 < |entries| {
      EntryParts(sha, identity, entries, i + 1);
      FollowsOf(sha, identity, entries, i + 1);
      MayFollowExactly(entries[i].kind, entries[i + 1].kind);
    }
  }

  predicate Empty(a: Artifact) {
    a.observation == None && a.digest == None && a.size == None && a.observationHash == None && a.content == None && a.raw == None
  }

  predicate Full(a: Artifact) {
    a.observation != None && a.digest != None && a.size != None && a.observationHash != None && a.content != None && a.raw != None
  }

  /**
    No entry has an artifact before it is committed, each stage from then on has all of it, and one that gives up
    has all or none. After the first entry nothing is announced before a page is checkpointed, and a checkpoint
    announces the end or a token, the end exactly if it keeps neither material nor binding.
   */
  lemma StageHolds(sha: Sha, identity: Identity, entries: seq<Entry>, i: nat)
    requires Accepted(sha, identity, entries) && i < |entries|
    ensures var e, stage := entries[i], StageOf(entries[i].kind);
            && (stage.Some? && stage.value <= 3 ==> Empty(e.body.artifact))
            && (stage.Some? && stage.value >= 4 ==> Full(e.body.artifact))
            && (stage.None? ==> Empty(e.body.artifact) || Full(e.body.artifact))
            && (i > 0 && stage.Some? && stage.value <= 5 ==> e.body.nextToken == None && e.body.nextMaterial == None && e.body.nextBinding == None)
            && (i > 0 && e.kind == PageCheckpointed ==>
                  e.body.nextToken != None
                  && (e.body.nextToken == Some(TerminalToken) <==> e.body.nextMaterial == None && e.body.nextBinding == None))
  {
    hide Accepted, SemanticsOk, Continues;
    At(sha, identity, entries, i);
  }

  // ----- One checkpoint by itself -----

  /** Everything counted stays within its bound. */
  predicate WithinBounds(b: Body) {
    && b.pageOrdinal <= 15 && b.pin.attemptOrdinal <= 2
    && b.counters.pages <= 16 && b.counters.bytes <= 64 * 1024 * 1024 && b.counters.records <= 160000 && b.counters.facts <= 160000
    && b.counters.attempts <= 48
    && (b.pageRecords != None ==> b.pageRecords.value <= 10000) && (b.pageFacts != None ==> b.pageFacts.value <= 160000)
    && (b.artifact.size != None ==> b.artifact.size.value <= 10 * 1024 * 1024)
  }

  /** A token that is kept in the clear is the one the hash beside it is of. */
  predicate Keeps(sha: Sha, token: Option<Token>, material: Option<string>) {
    match material
    case None => true
    case Some(m) => 1 <= |m| <= 4096 && token == Some(TokenHash(sha(TokenPre(m))))
  }

  /** The first page has no token of its own; every later one has its hash, its material and its binding. */
  predicate PageToken(b: Body) {
    if b.pageOrdinal > 0 then b.currentToken.TokenHash? && b.currentMaterial != None && b.currentBinding != None
    else b.currentToken == NoToken && b.currentMaterial == None && b.currentBinding == None
  }

  /** A checkpoint passes by itself exactly if it is authorized, within bounds, keeps its tokens, and says why and that it ended if it did. */
  lemma CheckpointExactly(sha: Sha, b: Body)
    ensures SemanticsOk(sha, b) <==>
              && b.authorized && WithinBounds(b) && PageToken(b)
              && Keeps(sha, Some(b.currentToken), b.currentMaterial) && Keeps(sha, b.nextToken, b.nextMaterial)
              && (b.terminal != None <==> b.reason != None) && (b.terminal != None <==> !b.incomplete)
              && forall i, j :: 0 <= i < j < |b.parents| ==> b.parents[i] < b.parents[j]
  {
    if StrictlyAscending(b.parents) {
      forall i, j | 0 <= i < j < |b.parents| ensures b.parents[i] < b.parents[j] { AscendingPairs(b.parents, i, j); }
    }
  }

  // ----- An acquisition of one page -----

  const STAGES: seq<Kind> := [AcquisitionDeclared, RequestStarted, AttemptStarted, RequestSucceeded, ArtifactCommitted, ArtifactVerified,
                              PageCheckpointed, ChainComplete, NormalizationStarted, NormalizationComplete, SelectionStarted, Completed]

  const NOTHING := Artifact(None, None, None, None, None, None)

  /** The body of a stage of a one-page acquisition of one artifact. */
  function StageBody(identity: Identity, pin: Pin, artifact: Artifact, n: nat): Body {
    Body(identity, true, 0, pin, NoToken, None, None, if n == 6 then Some(TerminalToken) else None, None, None,
         if n < 4 then NOTHING else artifact, None, None, Counters(0, 0, 0, 0, 0), [],
         if n == 11 then Some("completed") else None, if n == 11 then Some("done") else None, n != 11, "")
  }

  function OnePage(sha: Sha, identity: Identity, pin: Pin, artifact: Artifact, n: nat): (r: seq<Entry>)
    requires n <= |STAGES|
    ensures |r| == n
  {
    if n == 0 then []
    else
      var before := OnePage(sha, identity, pin, artifact, n - 1);
      before + [Seal(sha, Before(before, n - 1), sha(JournalPre(identity)), STAGES[n - 1], StageBody(identity, pin, artifact, n - 1))]
  }

  lemma {:induction false} OnePageEntries(sha: Sha, identity: Identity, pin: Pin, artifact: Artifact, n: nat, i: nat)
    requires i < n <= |STAGES|
    ensures var r := OnePage(sha, identity, pin, artifact, n);
            r[i] == Seal(sha, Before(r, i), sha(JournalPre(identity)), STAGES[i], StageBody(identity, pin, artifact, i))
  {
    hide Seal, StageBody;
    if i < n - 1 { OnePageEntries(sha, identity, pin, artifact, n - 1, i); }
  }

  lemma StageBodyOk(sha: Sha, identity: Identity, pin: Pin, artifact: Artifact, n: nat)
    requires n < |STAGES| && pin.attemptOrdinal <= 2 && (artifact.size.Some? ==> artifact.size.value <= RAW_BYTES_MAX)
    ensures SemanticsOk(sha, StageBody(identity, pin, artifact, n))
  {
  }

  lemma StageNext(a: Kind, b: Kind)
    requires StageOf(a).Some? && StageOf(b) == Some(StageOf(a).value + 1)
    ensures MayFollow(a, b)
  {
    MayFollowExactly(a, b);
  }

  lemma StageFollows(sha: Sha, identity: Identity, pin: Pin, artifact: Artifact, previous: Option<Entry>, e: Entry, n: nat)
    requires n < |STAGES| && WholeArtifact(artifact) && e.kind == STAGES[n] && e.body == StageBody(identity, pin, artifact, n)
    requires if n == 0 then previous.None?
             else previous.Some? && previous.value.kind == STAGES[n - 1] && previous.value.body == StageBody(identity, pin, artifact, n - 1)
    ensures TransitionOk(previous, e) && !Dispatches(e)
  {
    hide MayFollow;
    if n > 0 { StageNext(STAGES[n - 1], STAGES[n]); }
  }

  /** An acquisition of one page, whatever it is of, is accepted stage after stage to its completion. */
  lemma OnePageAccepted(sha: Sha, identity: Identity, pin: Pin, artifact: Artifact, n: nat)
    requires 0 < n <= |STAGES| && WholeArtifact(artifact) && pin.attemptOrdinal <= 2 && artifact.size.value <= RAW_BYTES_MAX
    ensures Accepted(sha, identity, OnePage(sha, identity, pin, artifact, n))
    ensures OnePage(sha, identity, pin, artifact, n)[n - 1].kind == STAGES[n - 1]
  {
    hide OnePage, StageBody, SemanticsOk, TransitionOk, Dispatches, Consumed;
    var r := OnePage(sha, identity, pin, artifact, n);
    forall i | 0 <= i < n ensures EntryOk(sha, identity, r, i) && r[i].kind == STAGES[i] {
      OnePageEntries(sha, identity, pin, artifact, n, i);
      StageBodyOk(sha, identity, pin, artifact, i);
      StageShape(identity, pin, artifact, i);
      if i > 0 {
        OnePageEntries(sha, identity, pin, artifact, n, i - 1);
        StageShape(identity, pin, artifact, i - 1);
      }
      StageFollows(sha, identity, pin, artifact, Before(r, i), r[i], i);
    }
  }

  lemma StageShape(identity: Identity, pin: Pin, artifact: Artifact, n: nat)
    requires n < |STAGES|
    ensures var b := StageBody(identity, pin, artifact, n);
            b.identity == identity && b.counters == Counters(0, 0, 0, 0, 0) && (b.terminal.Some? <==> n == 11)
  {
  }
}
