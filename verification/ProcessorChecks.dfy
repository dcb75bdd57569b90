/**
  What the checker of a commit lets through: nothing but what a producer could have built. For every list
  of outputs that passes there is a transition they are the outputs of.
 */
module ProcessorChecks {
  import opened Base
  import opened Events
  import opened Processor

  // ----- Outputs in blocks -----

  predicate RanksRise(os: seq<Output>) {
    forall i :: 0 < i < |os| ==> Rank(os[i - 1].category) <= Rank(os[i].category)
  }

  /** Where decisions end, where jobs end, and where messages end in the first `m` outputs. */
  predicate Blocks(os: seq<Output>, m: nat, d: nat, j: nat)
    requires m <= |os|
  {
    && d + j <= m
    && forall i :: 0 <= i < m ==> os[i].category == if i < d then Decision else if i < d + j then Job else Outbox
  }

  lemma CountNext(os: seq<Output>, m: nat, c: Category)
    requires 0 < m <= |os|
    ensures CountOf(os[..m], c) == CountOf(os[..m - 1], c) + (if os[m - 1].category == c then 1 else 0)
  {
    assert os[..m][..m - 1] == os[..m - 1];
  }

  /** Rising ranks put the outputs in three blocks as long as their counts. */
  lemma {:induction false} InBlocks(os: seq<Output>, m: nat)
    requires RanksRise(os) && m <= |os|
    ensures Blocks(os, m, CountOf(os[..m], Decision), CountOf(os[..m], Job))
    ensures CountOf(os[..m], Decision) + CountOf(os[..m], Job) + CountOf(os[..m], Outbox) == m
    decreases m
  {
    hide CountOf;
    if m == 0 {
      NoCounts(os);
    } else {
      InBlocks(os, m - 1);
      CountNext(os, m, Decision);
      CountNext(os, m, Job);
      CountNext(os, m, Outbox);
      if m > 1 { assert Rank(os[m - 2].category) <= Rank(os[m - 1].category); }
    }
  }

  lemma NoCounts(os: seq<Output>)
    ensures forall c: Category :: CountOf(os[..0], c) == 0
  {
    assert os[..0] == [];
  }

  /** The ordinal of an output is its place in its own block. */
  lemma OrdinalIsPlace(os: seq<Output>, i: nat)
    requires RanksRise(os) && i < |os|
    ensures var d, j := CountOf(os, Decision), CountOf(os, Job);
            CountOf(os[..i], os[i].category) == if i < d then i else if i < d + j then i - d else i - d - j
  {
    hide CountOf, RanksRise;
    InBlocks(os, |os|);
    assert os[..|os|] == os;
    InBlocks(os, i);
    var d, j := CountOf(os, Decision), CountOf(os, Job);
    var a, b := CountOf(os[..i], Decision), CountOf(os[..i], Job);
    SameBounds(os, i, a, b, d, j);
  }

  /** The blocks of a front part are those of the whole, cut off. */
  lemma SameBounds(os: seq<Output>, i: nat, a: nat, b: nat, d: nat, j: nat)
    requires i < |os| && Blocks(os, i, a, b) && Blocks(os, |os|, d, j)
    ensures a == (if i < d then i else d) && a + b == (if i < d + j then i else d + j)
  {
    if a < i { assert os[a].category != Decision; }
    if d < i { assert os[d].category != Decision; }
    if a + b < i { assert os[a + b].category == Outbox; }
    if d + j < i { assert os[d + j].category == Outbox; }
  }

  // ----- The transition behind checked outputs -----

  function BodiesOf(os: seq<Output>, from: nat, to: nat): (r: seq<Body>)
    requires from <= to <= |os|
    ensures |r| == to - from && forall i :: 0 <= i < |r| ==> r[i] == os[from + i].body
  {
    seq(to - from, i requires 0 <= i < to - from => os[from + i].body)
  }

  function Source(os: seq<Output>, d: nat, j: nat): Transition
    requires d + j <= |os|
  {
    Transition("", BodiesOf(os, 0, d), BodiesOf(os, d, d + j), BodiesOf(os, d + j, |os|))
  }

  lemma CheckedRise(k: Kernel, e: Stored, aggregate: string, os: seq<Output>)
    requires OutputsChecked(k, e, aggregate, os)
    ensures RanksRise(os)
  {
    hide OutputSealed, BodyValid, Identity, CountOf;
    forall i | 0 < i < |os| ensures Rank(os[i - 1].category) <= Rank(os[i].category) { assert OutputChecked(k, e, aggregate, os, i); }
  }

  lemma CheckedAt(k: Kernel, e: Stored, aggregate: string, os: seq<Output>, i: nat)
    requires OutputsChecked(k, e, aggregate, os) && i < |os|
    ensures os[i].ordinal == CountOf(os[..i], os[i].category) && OutputSealed(k, e, aggregate, os[i]) && BodyValid(k, os[i])
    ensures forall j :: 0 <= j < i && Identity(k, os[i]).Some? ==> Identity(k, os[j]) != Identity(k, os[i])
  {
    assert OutputChecked(k, e, aggregate, os, i);
    hide OutputSealed, BodyValid, Identity, CountOf;
  }

  /** A sealed output with valid metadata is what the producer makes of its body. */
  lemma SealedIsMade(k: Kernel, e: Stored, aggregate: string, o: Output)
    requires OutputSealed(k, e, aggregate, o) && BodyValid(k, o)
    ensures o == Make(k, e, aggregate, o.category, o.ordinal, o.body)
    ensures DraftOk(k, o.category, o.body) && Fits(o.body)
  {
    hide IdsDerived, Fits;
  }

  lemma CheckedAreMade(k: Kernel, e: Stored, aggregate: string, os: seq<Output>, t: Transition)
    requires OutputsChecked(k, e, aggregate, os) && CountOf(os, Decision) + CountOf(os, Job) <= |os|
    requires t == Source(os, CountOf(os, Decision), CountOf(os, Job))
    ensures os == Outputs(k, e, aggregate, t)
  {
    hide OutputsChecked, Outputs, Make, CountOf, RanksRise, OutputSealed, BodyValid;
    var made := Outputs(k, e, aggregate, t);
    CheckedRise(k, e, aggregate, os);
    InBlocks(os, |os|);
    assert os[..|os|] == os;
    OutputsPlaced(k, e, aggregate, t);
    forall i | 0 <= i < |os| ensures os[i] == made[i] {
      CheckedAt(k, e, aggregate, os, i);
      OrdinalIsPlace(os, i);
      SealedIsMade(k, e, aggregate, os[i]);
      assert Placed(k, e, aggregate, t, made, i);
    }
  }

  /** The source of checked outputs is one the producer takes. */
  lemma SourceProducible(k: Kernel, e: Stored, aggregate: string, os: seq<Output>, t: Transition)
    requires OutputsChecked(k, e, aggregate, os) && CountOf(os, Decision) + CountOf(os, Job) <= |os|
    requires t == Source(os, CountOf(os, Decision), CountOf(os, Job)) && os == Outputs(k, e, aggregate, t)
    ensures Producible(k, e, aggregate, t) && AllFit(os)
  {
    assert |os| <= MAX_OUTPUTS;
    hide OutputsChecked, Outputs, Make, CountOf, RanksRise, OutputSealed, BodyValid, DraftOk, Fits, Identity;
    var d, j := CountOf(os, Decision), CountOf(os, Job);
    SoundDrafts(k, e, aggregate, os);
    DraftsSound(k, os, d, j, t);
    KeysDiffer(k, e, aggregate, os);
    hide Source, DistinctKeys, DraftsOk;
  }

  lemma SoundDrafts(k: Kernel, e: Stored, aggregate: string, os: seq<Output>)
    requires OutputsChecked(k, e, aggregate, os)
    ensures var d, j := CountOf(os, Decision), CountOf(os, Job);
            forall i :: 0 <= i < |os| ==> DraftOk(k, if i < d then Decision else if i < d + j then Job else Outbox, os[i].body) && Fits(os[i].body)
  {
    hide OutputsChecked, CountOf, RanksRise, OutputSealed, BodyValid, DraftOk, Fits, Identity;
    CheckedRise(k, e, aggregate, os);
    InBlocks(os, |os|);
    assert os[..|os|] == os;
    forall i | 0 <= i < |os| ensures DraftOk(k, os[i].category, os[i].body) && Fits(os[i].body) {
      CheckedAt(k, e, aggregate, os, i);
      SealedIsMade(k, e, aggregate, os[i]);
    }
  }

  lemma KeysDiffer(k: Kernel, e: Stored, aggregate: string, os: seq<Output>)
    requires OutputsChecked(k, e, aggregate, os)
    ensures DistinctKeys(k, os)
  {
    hide OutputsChecked, CountOf, OutputSealed, BodyValid, Identity;
    forall i, n | 0 <= i < n < |os| && Identity(k, os[i]).Some? ensures Identity(k, os[i]) != Identity(k, os[n]) {
      CheckedAt(k, e, aggregate, os, n);
    }
  }

  lemma DraftsSound(k: Kernel, os: seq<Output>, d: nat, j: nat, t: Transition)
    requires d + j <= |os| && t == Source(os, d, j)
    requires forall i :: 0 <= i < |os| ==> DraftOk(k, if i < d then Decision else if i < d + j then Job else Outbox, os[i].body)
    ensures DraftsOk(k, Decision, t.decisions) && DraftsOk(k, Job, t.jobs) && DraftsOk(k, Outbox, t.outbox)
  {
    hide DraftOk;
    forall i | 0 <= i < |t.decisions| ensures DraftOk(k, Decision, t.decisions[i]) { assert t.decisions[i] == os[i].body; }
    forall i | 0 <= i < |t.jobs| ensures DraftOk(k, Job, t.jobs[i]) { assert t.jobs[i] == os[d + i].body; }
    forall i | 0 <= i < |t.outbox| ensures DraftOk(k, Outbox, t.outbox[i]) { assert t.outbox[i] == os[d + j + i].body; }
  }

  ghost predicate MadeFrom(k: Kernel, e: Stored, aggregate: string, os: seq<Output>, t: Transition) {
    Producible(k, e, aggregate, t) && os == Outputs(k, e, aggregate, t)
  }

  ghost predicate SomebodysOutputs(k: Kernel, e: Stored, aggregate: string, os: seq<Output>) {
    exists t: Transition :: MadeFrom(k, e, aggregate, os, t)
  }

  /** The checker passes exactly the outputs of producible transitions that fit the schema. */
  lemma CheckedExactly(k: Kernel, e: Stored, aggregate: string, os: seq<Output>)
    requires Injective(k.sha)
    ensures OutputsChecked(k, e, aggregate, os) <==> SomebodysOutputs(k, e, aggregate, os) && AllFit(os)
  {
    hide OutputsChecked, Outputs, Producible, AllFit, CountOf, RanksRise;
    if OutputsChecked(k, e, aggregate, os) {
      CheckedRise(k, e, aggregate, os);
      InBlocks(os, |os|);
      assert os[..|os|] == os;
      var t := Source(os, CountOf(os, Decision), CountOf(os, Job));
      CheckedAreMade(k, e, aggregate, os, t);
      SourceProducible(k, e, aggregate, os, t);
      assert MadeFrom(k, e, aggregate, os, t);
    }
    if SomebodysOutputs(k, e, aggregate, os) {
      var t: Transition :| MadeFrom(k, e, aggregate, os, t);
      OutputsMeetChecker(k, e, aggregate, t);
    }
  }

  /** The event comes next after the cursor: sealed, in place, on its hash and not before its time. */
  predicate NextAfter(k: Kernel, e: Stored, previous: Cursor) {
    && e.captured.eventId == k.sha(EventPre(e.captured.draft.provider)) && e.contentHash == k.sha(ContentPre(e.captured))
    && e.eventHash == k.sha(ChainPre(e.position, e.contentHash, e.previousEventHash))
    && e.position == previous.processed + 1 && e.previousEventHash == previous.lastEventHash
    && previous.logicalAtMs <= e.captured.logicalAtMs
  }

  /**
    A commit passes after a cursor if and only if the cursor is sound, the event is the next one, the aggregate is a
    sealed checkpoint of it, the outputs are somebody's and fit, and the commit's cursor is the one these determine.
   */
  lemma TransitionExactly(k: Kernel, c: Commit, previous: Cursor)
    requires Injective(k.sha)
    ensures TransitionChecked(k, c, previous) <==>
              && CursorSealed(k, previous) && (previous.processed == 0 ==> previous == GenesisCursor(k))
              && c.expectedPosition == previous.processed && NextAfter(k, c.event, previous)
              && c.aggregate.version >= 1
              && c.aggregate == SealCheckpoint(k, c.aggregate.aggregateId, c.aggregate.version, c.event.position, c.aggregate.state)
              && SomebodysOutputs(k, c.event, c.aggregate.aggregateId, c.outputs) && AllFit(c.outputs)
              && c.cursor == NextCursor(k, previous, c.event, c.aggregate, c.outputs)
  {
    CheckedExactly(k, c.event, c.aggregate.aggregateId, c.outputs);
    CursorExactly(k, c, previous);
    EventExactly(k, c.event, previous);
    hide OutputsChecked, SomebodysOutputs, AllFit, GenesisCursor, Injective, CursorSealed, NextCursor, Verified, NextAfter, CursorFollows, SealCheckpoint;
  }

  predicate CursorFollows(k: Kernel, c: Commit, previous: Cursor) {
    && CursorSealed(k, c.cursor)
    && c.cursor.processed == c.event.position && c.cursor.logicalAtMs == c.event.captured.logicalAtMs
    && c.cursor.lastEventHash == c.event.eventHash
    && c.cursor.stateHead
         == k.sha(StateStepPre(previous.stateHead, c.event.eventHash, c.aggregate.aggregateId, c.aggregate.stateHash))
    && c.cursor.decisionHead == k.sha(DecisionStepPre(previous.decisionHead, c.event.eventHash, Semantics(c.outputs)))
  }

  lemma CursorExactly(k: Kernel, c: Commit, previous: Cursor)
    ensures CursorFollows(k, c, previous) <==> c.cursor == NextCursor(k, previous, c.event, c.aggregate, c.outputs)
    ensures TransitionChecked(k, c, previous) <==>
              && CursorFollows(k, c, previous)
              && CursorSealed(k, previous) && (previous.processed == 0 ==> previous == GenesisCursor(k))
              && c.expectedPosition == previous.processed
              && Verified(k.sha, c.event, previous.lastEventHash) && c.event.position == previous.processed + 1
              && previous.logicalAtMs <= c.event.captured.logicalAtMs
              && CheckpointSealed(k, c.aggregate) && c.aggregate.lastInput == c.event.position && c.aggregate.version > 0
              && OutputsChecked(k, c.event, c.aggregate.aggregateId, c.outputs)
  {
    hide OutputsChecked, Semantics, GenesisCursor, CheckpointSealed;
  }

  lemma EventExactly(k: Kernel, e: Stored, previous: Cursor)
    ensures NextAfter(k, e, previous) <==>
              Verified(k.sha, e, previous.lastEventHash) && e.position == previous.processed + 1 && previous.logicalAtMs <= e.captured.logicalAtMs
  {
  }
}
